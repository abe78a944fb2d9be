# A verified model of the media-generation app's server core

The application is a Next.js front end for hosted image, video and audio models, served by fal.ai
and Replicate. This project models its server-side core in Dafny and proves properties of the model.

- **Model catalogue.** `GET /api/models` reads `ModelReferences.md` and scans it line by line.
  - `****Category****` headers name a category; `- namespace/model` bullets fill the current category.
  - A second scan collects LoRA names.
  - The lists are flattened into model records, each with its endpoint id and LoRA flag.
  - The stand-alone script `test-models.js` runs the same parser, character for character. It
    counts the models per category and in total; `ModelTest` reuses the `ModelList` parser for it.
- **LoRA options.** `GET /api/lora-options` reads the LoRA section of the same document, from its
  `LoRAs—` marker to the next `---` line.
  - It extracts each entry's name and url.
  - It reads the style flag, trigger phrase and subject name from the entry's next two lines.
- **Media rehosting and input validation.** `lib/fal-utils.ts` has four parts:
  - the content-type to extension table;
  - `storeMediaFile`, which copies a generated file into blob storage and falls back to the
    original url on any failure;
  - `processAndStoreResult`, which rewrites the media fields of a result;
  - `validateModelInput`, a schema check of required fields and field types.
- **fal.ai webhook.** `POST /api/webhooks/fal` dispatches on the job status.
  - For a completed job it rewrites the payload's media fields with a `webhook_` blob copy.
  - It adds a `webhook_metadata` record.
- **Replicate route.** `POST /api/replicate` does the following:
  - builds the prediction input with `||` defaults and eight optional fields;
  - asks Replicate for a prediction, and polls for at most 120 attempts while it is running;
  - answers with the output images, each rehosted by `storeMediaFile`.
- **Middleware.** `middleware.ts` redirects mobile user agents to `/mobile` and desktop ones away
  from it, except for API, Next.js-internal, favicon and static-file paths.

## How JavaScript is modelled

- **Values.** `JsValue.Json` models JavaScript values.
  - Objects are ordered association lists, so `{...o}`, `o[k] = v` and `Object.keys`/`Object.entries`
    keep insertion order.
  - `typeof`, truthiness, `||`, `??`-style nullishness and property access on `null` are written out.
- **Thrown errors.** `Completion` is either a normal value or a thrown error with its message.
  - An engine error (a `TypeError`, a JSON `SyntaxError`, a network failure) carries `None`,
    because its text belongs to the engine.
- **The outside world.** File reads, `fetch`, blob `put`, `Date.now()`, `new Date().toISOString()`
  and `process.env` become parameters.
  - The document's content is passed as an `Option<string>`.
  - `FalUtils.Storage` bundles `fetch`, `put` and one clock reading.
  - The Replicate endpoints are functions from the request to the response.
- **`String(v)`** of a non-string value is the parameter `show`.
- **`isNaN(Number(s))`** is the parameter `isNumeric`.
- **Strings are sequences of code points.**
  - `toLowerCase` under a regular expression's `i` flag is the ASCII folding that flag performs.
  - `trim` uses JavaScript's white-space set.

Some entities that look like classes in the source are really single computations:
- `models` and `loraOptions` are locals of one function;
- `processedResult` is a local copy that is returned;
- `input` is built once and sent.

So the model uses values throughout. The loops that fill them are `method`s. Each method is
proved equal to a specification function, and the lemmas characterise that function.

## Model

| member | source | states |
|---|---|---|
| ModelList.CategoryFacts | app/api/models/route.ts:10-19 | No listed category is the empty string and none is `LoRAs`, so the `currentCategory &&` guard never rejects a recognised category and the LoRA list never collides with a scanned one. |
| ModelList.AssignTwice | app/api/models/route.ts:35-36 | A header seen again replaces its category's list by a fresh empty one in place, keeping the key's original position. |
| ModelList.HeaderIsNotModel | app/api/models/route.ts:29-46 | A recognised header line names a listed category and is never also a model bullet. |
| ModelList.KindsOk | app/api/models/route.ts:25-46 | Every line's classification is consistent in that sense. |
| ModelList.ScanCategories | app/api/models/route.ts:21-47 | The header/model loop produces exactly the record and current category of the specification scan. |
| ModelList.ScanCurrent | app/api/models/route.ts:22-37 | After the loop the current category is the last recognised header, or empty if there was none. |
| ModelList.ScanDomain | app/api/models/route.ts:31-37 | A category has a list exactly when a header for it occurs in the document. |
| ModelList.ScanKeys | app/api/models/route.ts:21-37 | The record's keys are the recognised headers in order of first occurrence, without repetitions. |
| ModelList.ScanList | app/api/models/route.ts:40-46 | A category's list holds the model bullets between its last header and the next header, in order. |
| ModelList.ScanCharacterisation | app/api/models/route.ts:21-47 | The four facts above together, plus distinct keys that are exactly the keys with a list. |
| ModelList.LoraKeyNotScanned | app/api/models/route.ts:29-37 | The header scan never creates the `LoRAs` key. |
| ModelList.AddLoraNames | app/api/models/route.ts:50-64 | The LoRA loop sets `LoRAs` to the names matched after the marker, in order. |
| ModelList.ParseModelReferences | app/api/models/route.ts:6-67 | The parser returns the specification record: the header/model scan of all lines, then the LoRA list if the marker occurs. |
| ModelList.ParseCategory | app/api/models/route.ts:21-47 | For every listed category: it is a key exactly when its header occurs, and its list holds the bullets after its last header. |
| ModelList.ParseLoras | app/api/models/route.ts:49-64 | `LoRAs` is a key exactly when the (mojibake) marker occurs. It then comes last, after the scanned categories. Its list holds the names found from the marker's first occurrence on. |
| ModelList.ParseValid | app/api/models/route.ts:6-67 | The parsed record has distinct keys, each with a list, and every key is a listed category or `LoRAs`. |
| ModelList.ParseCovers | app/api/models/route.ts:6-67 | Every key of the parsed record has a list, so flattening never reads a missing entry. |
| ModelList.HeaderStarsRemoved | app/api/models/route.ts:30 | Removing every `*` from `****c****` gives `c` back when `c` has no `*`. |
| ModelList.HeaderLineShape | app/api/models/route.ts:29 | `****c****` is trimmed already, starts with `****` and ends with `****`. |
| ModelList.HeaderLineRead | app/api/models/route.ts:26-37 | A header line `****c****` reads as `c`, and is recognised exactly when `c` is a listed category. |
| ModelList.ModelLineRead | app/api/models/route.ts:41-42 | A bullet `- name` whose name contains `/` yields `name`. |
| ModelList.BracketLineMatch | app/api/models/route.ts:58 | The LoRA expression matches `- "name": [url]` with group 1 equal to `name`. |
| ModelList.BracketLineTrimmed | app/api/models/route.ts:57 | Such a line passes the `- "` prefix test after trimming. |
| ModelList.BracketEntryRead | app/api/models/route.ts:57-60 | Such a line contributes exactly `name` to the LoRA list. |
| ModelList.EndpointId | app/api/models/route.ts:81-87 | The endpoint id is the model name exactly when the name starts with one of the four namespaces, otherwise null. |
| ModelList.EntriesOf | app/api/models/route.ts:77-90 | One record per model of a category, in list order, with the name, the category, the endpoint id, and the LoRA flag set exactly for `LoRAs`. |
| ModelList.Flatten | app/api/models/route.ts:74-91 | The flattened list has as many records as the lists have models. Every record's category is a key and its name is in that category's list. `isLora` holds exactly for `LoRAs` records. |
| ModelList.FlattenAt | app/api/models/route.ts:76-90 | The `j`-th model of the `k`-th key sits at index (models of the earlier keys) + `j`, as its record. |
| ModelList.PushEntries | app/api/models/route.ts:77-90 | The inner loop appends the records of one category to the list built so far. |
| ModelList.FlattenModels | app/api/models/route.ts:74-91 | The nested loops build exactly the flattened list, in key order. |
| ModelList.ListModels | app/api/models/route.ts:70-106 | An unreadable document gives the 500 failure answer. A readable one gives the flattened records, the keys as `categories`, and their count as `total`. |
| ModelTest.Counts | test-models.js:74-77 | The count reported per category is the length of its list, in key order. |
| ModelTest.TotalIsSum | test-models.js:73-79 | The running total equals the sum of the per-category counts, which equals the number of records the API route lists. |
| ModelTest.CountModels | test-models.js:73-77 | The counting loop yields the per-category counts and their sum. |
| ModelTest.TestModels | test-models.js:69-82 | The script reports the parsed keys, their counts and the total, or the failure when the document cannot be read. The total agrees with the API route's `total`. |
| LoraOptions.FindAttributeHasKey | app/api/lora-options/route.ts:81-95 | An attribute expression matches only a line that contains its key. |
| LoraOptions.FirstIndex | app/api/lora-options/route.ts:56 | `lines.indexOf(line)` is the first index holding the line. |
| LoraOptions.FirstIndexOfUnique | app/api/lora-options/route.ts:56-64 | A line occurring once takes its attributes from the two lines right after it. |
| LoraOptions.ScanLoraLines | app/api/lora-options/route.ts:20-112 | The section loop returns exactly the specification's options for the lines. |
| LoraOptions.ReadEntry | app/api/lora-options/route.ts:47-108 | For an entry line, the option built is the specification's one: name, cleaned url and attributes from the following lines. |
| LoraOptions.ReadAttributes | app/api/lora-options/route.ts:66-99 | The style flag, phrase reference and subject reference are the specification functions of the next two lines. |
| LoraOptions.ParseLoraReferences | app/api/lora-options/route.ts:15-117 | The options of the document's lines, and none when the document cannot be read. |
| LoraOptions.StoppedStays | app/api/lora-options/route.ts:36-38 | Once the loop has stopped at a `---` line, later lines change nothing. |
| LoraOptions.MarkerIsNoEntry | app/api/lora-options/route.ts:29-45 | A marker line neither closes the section nor yields an entry. |
| LoraOptions.CollectSection | app/api/lora-options/route.ts:24-110 | With the first marker at `m` and the first later `---` at `e`, the options are those of the entries strictly between them. |
| LoraOptions.NoOpeningNoOptions | app/api/lora-options/route.ts:24-45 | A document without a marker line yields no options. |
| LoraOptions.SectionOptions | app/api/lora-options/route.ts:24-110 | The same section characterisation, stated on the document's lines. |
| LoraOptions.BracketLine | app/api/lora-options/route.ts:43-47 | `- "name": [url]` passes the guards, and the entry expression reads `name` and `url` from it. |
| LoraOptions.BareLine | app/api/lora-options/route.ts:43-47 | `- "name": url` passes the guards, and the entry expression reads `name` and `url` from it. |
| LoraOptions.BareLineTrimmed | app/api/lora-options/route.ts:27 | Such a line is its own trim. |
| LoraOptions.CleanUrlOfPlain | app/api/lora-options/route.ts:53 | Cleaning leaves a trimmed url without brackets unchanged. |
| LoraOptions.BracketEntryRead | app/api/lora-options/route.ts:41-53 | A bracketed entry line yields an option with exactly its name and url. |
| LoraOptions.BareEntryRead | app/api/lora-options/route.ts:41-53 | A bare entry line yields an option with exactly its name and url. |
| LoraOptions.AttributeRead | app/api/lora-options/route.ts:81-95 | `key="value"` matches the attribute expression for `key` with group 1 equal to `value`. |
| LoraOptions.IsStyleIff | app/api/lora-options/route.ts:70-75 | The style flag is set exactly when the next line contains `Is style=`, whatever value follows. |
| LoraOptions.PhraseIsMisspeltMatch | app/api/lora-options/route.ts:77-87 | The phrase reference is the value of the `phrade reference` attribute or empty; a non-empty one implies the misspelt key occurs. |
| LoraOptions.SubjectIsFirstMatch | app/api/lora-options/route.ts:89-99 | The subject name is the attribute value on the next line, else on the line after it, else empty. |
| FalUtils.GetFileExtension | lib/fal-utils.ts:17-33 | The extension is `bin` exactly for content types outside the ten media types. It is never empty and has no `.` or `/`. |
| FalUtils.FilenameShape | lib/fal-utils.ts:53-58 | The blob name starts with the model name with every `/` turned into `-`, which has no `/` left, and ends with `.` and the extension. |
| FalUtils.FieldNamesDistinct | lib/fal-utils.ts:95 | Different array indices give different `field_index` names. |
| FalUtils.FilenamesDistinct | lib/fal-utils.ts:55-58 | Within one request and clock reading, different dot-free field names give different blob names. |
| FalUtils.StoreMediaFile | lib/fal-utils.ts:36-72 | A throwing or non-ok fetch gives the original url. Otherwise the result is the url `put` returns for the computed name and announced content type (defaulting to `application/octet-stream`), or the original url when the upload throws. |
| FalUtils.StoredItemShape | lib/fal-utils.ts:89-104 | An item without a truthy `url` is returned unchanged. Otherwise it keeps every property and key order, `original_url` holds the url, and `stored_url` holds the result of storing it. |
| FalUtils.StoredItems | lib/fal-utils.ts:85-106 | An array field maps item by item, the `index`-th stored under `field_index`. |
| FalUtils.ProcessFieldFacts | lib/fal-utils.ts:84-125 | One iteration keeps the keys and their order, sets the field to its processed value, and leaves every other field as it was. |
| FalUtils.ProcessFieldSets | lib/fal-utils.ts:84-125 | After one iteration, the field holds its processed value. |
| FalUtils.ProcessFieldKeeps | lib/fal-utils.ts:84-125 | One iteration changes no field but its own and keeps the key order. |
| FalUtils.MediaFieldsDistinct | lib/fal-utils.ts:81 | The six media field names are distinct. |
| FalUtils.ProcessAndStoreResult | lib/fal-utils.ts:75-129 | The loop over the media fields gives the fold of the per-field step over the copied result. |
| FalUtils.ProcessedResult | lib/fal-utils.ts:80-128 | The processed result has the original keys in order and the same non-media fields. Each media field is processed from its original value. |
| FalUtils.CheckRequired | lib/fal-utils.ts:145-149 | One `Missing required field` message per required name absent from the input, in order. |
| FalUtils.CheckEntry | lib/fal-utils.ts:155-178 | For one schema entry: whether reading its `type` throws, and otherwise the type message it adds, if any. |
| FalUtils.CheckTypes | lib/fal-utils.ts:152-179 | The type loop throws exactly when some present field's schema is nullish. Otherwise it gives the type messages of all entries, in order. |
| FalUtils.ValidateModelInput | lib/fal-utils.ts:132-185 | The method computes exactly the specification's validation outcome. |
| FalUtils.ValidThrows | lib/fal-utils.ts:137-179 | Validation throws exactly when the schema has truthy `properties` and either `required` is not iterable or some present field's schema is nullish. |
| FalUtils.ValidIff | lib/fal-utils.ts:137-185 | When it returns, the input is valid exactly when `errors` is absent. That holds exactly when there are no properties, or every required name is present and no present field has a mismatching type. |
| FalWebhook.WebhookFilenameShape | app/api/webhooks/fal/route.ts:162-167 | Webhook blob names start with `webhook_`, then the slash-free model name, and end with `.` and the extension. |
| FalWebhook.StoreWebhookFallback | app/api/webhooks/fal/route.ts:145-181 | The original url comes back when the fetch throws, is not ok, or the model name is not a string. After an ok fetch, with a string model name, the result is the url `put` returned for the `webhook_` name, or the original url when the upload throws. Any other url is what `put` returned. |
| FalWebhook.WebhookItemShape | app/api/webhooks/fal/route.ts:86-108 | An item without a non-empty string `url` stays as it is. Otherwise it keeps its properties in order and gains `original_url`, `stored_url` and `webhook_processed: true`. |
| FalWebhook.WebhookItems | app/api/webhooks/fal/route.ts:84-110 | An array field maps item by item, the `index`-th stored under `field_index`. |
| FalWebhook.WebhookFieldFacts | app/api/webhooks/fal/route.ts:81-131 | One iteration keeps the keys, sets the field to its processed value and leaves the other fields alone. |
| FalWebhook.ProcessWebhookPayload | app/api/webhooks/fal/route.ts:67-142 | The loop and the final spread give exactly the specification's processed payload. |
| FalWebhook.ProcessedMedia | app/api/webhooks/fal/route.ts:77-132 | After the loop: the original keys, the non-media fields unchanged, and each media field processed from its original value. |
| FalWebhook.ProcessedPayloadShape | app/api/webhooks/fal/route.ts:67-142 | The result is the above, plus `webhook_metadata`, appended unless the payload already had that key. The metadata holds the timestamp, the model and the request id. |
| FalWebhook.MetadataDefaults | app/api/webhooks/fal/route.ts:74-75 | Model and request id are the metadata's truthy values, else `"unknown"`, and so always truthy. |
| FalWebhook.HandleWebhook | app/api/webhooks/fal/route.ts:5-64 | The answer is the dispatch on the body. The payload is processed exactly for a completed job, from the body's `payload` and `metadata`. |
| FalWebhook.DispatchCases | app/api/webhooks/fal/route.ts:12-64 | A completed job with a truthy payload is processed. A failed job answers `success: false` with the payload as its error. Any other parsed body is acknowledged. The answer is 500 exactly when the body does not parse or is null. |
| Replicate.BuildInput | app/api/replicate/route.ts:20-42 | The literal and the eight conditional assignments build exactly the specification input. |
| Replicate.CopyFold | app/api/replicate/route.ts:34-42 | Copying distinct new keys appends the truthy ones, in order, and each reads as the body's value or as before. |
| Replicate.BaseInputFacts | app/api/replicate/route.ts:21-32 | The literal has its ten keys in order, each defaulted field is the body's value `||` its default, `prompt` is copied, and `go_fast` is `body.go_fast !== false`. |
| Replicate.InputCopies | app/api/replicate/route.ts:34-42 | The input's keys are the ten literal keys followed by the truthy optional ones, in order. An optional key reads as the body's value when truthy; everything else reads as in the literal. |
| Replicate.InputDefaults | app/api/replicate/route.ts:21-32 | In the final input every defaulted field is the body's truthy value or its default, `prompt` is the body's, and `go_fast` is true unless the body says `false`. |
| Replicate.InputOptional | app/api/replicate/route.ts:35-42 | An optional field is present exactly when the body's value is truthy, and then equals it. |
| Replicate.PollForCompletion | app/api/replicate/route.ts:126-162 | The polling loop gives exactly the specification's outcome. |
| Replicate.PollSucceeds | app/api/replicate/route.ts:131-155 | Polling returns a prediction exactly when some attempt within the bound finishes with one after only pending attempts. That prediction's status is `succeeded`. |
| Replicate.PollFirst | app/api/replicate/route.ts:131-159 | Polling ends with exactly the outcome of the first attempt within the bound that finishes. |
| Replicate.PollOutcome | app/api/replicate/route.ts:141-155 | The first finishing attempt decides the result. A `succeeded` prediction is returned as the attempt saw it. `failed` or `canceled` throws the provider's error, or `Prediction failed`. A non-ok response throws `Failed to check prediction status: ` + its status text. A throwing request, an unparsable body or a `null` body throws the engine's error. |
| Replicate.PollTimesOut | app/api/replicate/route.ts:131-161 | When every attempt stays pending, polling throws `Prediction timed out`. |
| Replicate.PollBounded | app/api/replicate/route.ts:129-131 | No status request beyond the `maxAttempts`-th is ever looked at. |
| Replicate.Images | app/api/replicate/route.ts:90-104 | One `{url, stored_url}` per output url, in order, the `index`-th stored under `image_index` for the fixed model name. |
| Replicate.HandleReplicate | app/api/replicate/route.ts:5-123 | The handler's answer is exactly the specification's. |
| Replicate.TokenChecked | app/api/replicate/route.ts:9-18 | A missing or empty token gives the 500 token error, whatever Replicate would have answered. |
| Replicate.PollOnlyWhenRunning | app/api/replicate/route.ts:80-83 | The status endpoint matters only when the first answer is `processing` or `starting`. |
| Replicate.UpstreamFailures | app/api/replicate/route.ts:58-78 | A non-ok answer passes Replicate's HTTP status through. A `failed` prediction answers 500 with its truthy error or `Prediction failed`. |
| Replicate.GeneratedShape | app/api/replicate/route.ts:85-111 | The answer succeeds exactly when the output is absent or an array. It then lists one rehosted image per url, and its request id is the prediction's id or `replicate-` + the clock. |
| Middleware.AnyTokenIff | middleware.ts:6-9 | The token scan finds a token exactly when one of the first `n` tokens occurs at some index, ASCII case ignored. |
| Middleware.IsMobileIff | middleware.ts:5-9 | The user agent is mobile exactly when one of the eight tokens occurs in it, ASCII case ignored. A missing header is desktop. |
| Middleware.ExcludedPass | middleware.ts:13-21 | API, Next.js-internal, favicon and static-file paths always pass through. |
| Middleware.Redirects | middleware.ts:23-37 | Mobile clients outside `/mobile` go to `/mobile`, and desktop clients inside it go to `/`, exactly when the path is not excluded. There is no other redirect. |
| Middleware.TargetsNotExcluded | middleware.ts:14-18 | Neither `/mobile` nor `/` is an excluded path. |
| Middleware.NoRedirectLoop | middleware.ts:4-38 | The same client requesting a redirect's target is let through. |

The LoRA marker the catalogue looks for is spelt `LoRasâ€”` in app/api/models/route.ts:50: an em
dash encoded as UTF-8 and decoded again as Windows-1252. The model keeps it as written, and
`ParseLoras` states the consequence. The `LoRAs` list exists only when the document contains that
exact sequence.

The webhook route has its own copy of the extension table (app/api/webhooks/fal/route.ts:184-200).
It is identical to lib/fal-utils.ts:17-33, so `FalWebhook` uses `FalUtils.GetFileExtension`.
test-models.js:5-66 repeats app/api/models/route.ts:6-67 exactly, so `ModelTest` uses the
`ModelList` parser.

## Left out

- **I/O and clocks.** Reading `ModelReferences.md`, `fetch`, blob `put`, `process.env`, `Date.now()`
  and `new Date().toISOString()` are parameters.
  - The clock is read once per request. Every file stored in one request gets the same
    timestamp, although the source reads `Date.now()` once per file.
- **`Promise.all`** over items is modelled as a sequential map. Concurrency, and the order in which
  uploads happen, are not modelled.
- **Not modelled at all:**
  - logging (`console.log` and `console.error`);
  - the one-second sleep between polls;
  - the request headers and the URL sent to Replicate;
  - `response.text()` on Replicate errors (read only for logging);
  - the bytes of `response.arrayBuffer()`, which is taken not to fail;
  - the `access: "public"` option of `put`.
- **Untaken `instanceof Error` branches.** The webhook's `"Webhook processing failed"` fallback and
  the Replicate route's `"Failed to generate images"` fallback are never reached. Every error the
  model throws is an `Error`, so its message, or the engine's, is used.
- **`config.matcher` in middleware.ts** decides which requests reach the middleware at all. It is
  Next.js routing configuration, not logic of the middleware, and is not modelled.
- **The commented-out webhook signature check** is not part of this model. Neither is
  `configureFalClient`, which only passes the key to the fal.ai client.
- **Routes outside the core are not part of this model:** the upload, submit and results routes,
  `app/api/models/[model]`, and the pages and components.
- **JavaScript value details:**
  - `field in input` and property reads see only own properties: names inherited from
    `Object.prototype` (such as `toString`) are not modelled.
  - Numbers are reals, without `NaN`, `-0` or formatting; `String(v)` of a non-string is the
    parameter `show`, and `isNaN(Number(s))` the parameter `isNumeric`.
  - `JSON.stringify` dropping `undefined` properties is not modelled; answers are Dafny datatypes.
- **Strings are sequences of code points, not of UTF-16 code units.** Indices, lengths and
  `{...str}` (`JsValue.Spread`) therefore differ from JavaScript's for characters outside the Basic
  Multilingual Plane, which JavaScript counts as two units. The same holds for iterating a string
  `required` in `FalUtils.Iterate`, which yields code points as `for...of` does.
- **`FalUtils.StoreMediaFile`** takes the url as any value, as the source's callers pass one.
  - Converting a non-string url inside `fetch` is part of the `fetch` parameter.
- **`LoraOptions.PhraseIsMisspeltMatch`**: the route's guard accepts both spellings of the phrase
  attribute, but its expression reads only the misspelt `phrade reference`. The model keeps that
  behaviour as written; which spelling the document uses is not knowable from the code.
- **Helper methods.** The source has some loop bodies inline; the model splits them into helper
  methods (`CheckRequired`, `CheckTypes`, `CheckEntry`, `ScanCategories`, `AddLoraNames`,
  `PushEntries`, `ReadEntry`, `ReadAttributes`, `BuildInput`, `PollForCompletion`). Each is proved
  against the same specification function the inline code would meet.
