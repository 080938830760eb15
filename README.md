# Koncile invoice extraction, modelled in Dafny

This project models the invoice back end of a Next.js application. The application sends utility invoices
(electricity, gas, water) to the Koncile.ai document service, normalises the fields the service
returns, and lets a user review, save, list and delete the invoices.

It models these parts:

- **`src/lib/koncile.ts`**, the extraction client:
  - the template table;
  - the generic `withRetry` backoff loop;
  - the upload step: URL, file-name sanitising and error messages;
  - the 30-attempt `pollTaskStatus` loop;
  - the upload → poll → merge workflow, with its one-shot fallback to auto-classification;
  - the field normaliser `transformKoncileResponse`;
  - the `extractInvoiceData` facade, which never throws.
- **`src/lib/koncile-new.ts`**, a second facade over the same shared definitions. It extracts with one direct call and has no polling, no fallback and no empty-result check.
- **The pure cores of the routes and pages**:
  - the save route: field lookup, confidence average, normalisation, validation, record and error mapping;
  - the upload route: file and type guards, error classification;
  - the review form: initial data, edits, confidence colours, groups, summary counts;
  - the history page: labels, main amount, search, counts, local delete;
  - the invoices route: `parseInt` paging, page count, query, `DELETE` and `POST`.

## How the model is built

- **Effects are passed as state.** The three Koncile endpoints form a `Transport.Script`: for each endpoint, the reply to its n-th call.
- **The world records what happened.** A `Transport.World` holds per-endpoint call counters, the log of requests sent, and the log of `setTimeout` delays waited.
- **Loops become methods.** Each loop of the source (`withRetry`, `pollTaskStatus`, the `forEach` writes, the pushes) is a Dafny method.
- **Each method is proved equal to a recursive specification function.** The properties are proved as lemmas about that function.
- **JavaScript objects are `JsObject.Obj<V>`.** This is a sequence of key/value pairs with distinct keys, in insertion order:
  - assigning `o[k] = v` or a spread update replaces the value in place, or appends it;
  - `Object.keys` and `Object.entries` follow that order for the string keys this code uses; JavaScript lists integer-like keys (`"0"`, `"42"`) first, in ascending numeric order, which the model does not (see "## Left out").
- **Confidences are `real`.** `Math.round(x * 100) / 100` is modelled exactly, as `floor(100x + 0.5) / 100`.

Behaviours of the code that are easy to mistake:

- `FAILED` is caught and retried like a transport error. The whole poll loop runs 30 times.
- `DUPLICATE` keeps polling.
- The outer retry re-runs upload and poll on any error.
- A confidence of 0 becomes 0.9, because of `||`.

## Model

| member | source | states |
|---|---|---|
| Template.GetTemplateId | src/lib/koncile.ts:108-120 | succeeds exactly for a key of the table, with its non-empty id; any other type is an error whose message lists the table's keys |
| Template.GetTemplateIdTable | src/lib/koncile-new.ts:101-113 | electricity gives 18982, gas 18983, water 18984; every other type gives "Unsupported invoice type: … Supported types: electricity, gas, water" |
| Backoff.RetryShape | src/lib/koncile.ts:123-146 | between 1 and maxRetries calls; calls - 1 waits of baseDelay·2^(k-1); every call before the last failed, and the last call starts from the world left by the earlier calls and waits; the last call's result is returned or rethrown unchanged; a failure only after all maxRetries calls; with maxRetries < 1 there is no call and the fixed "Retry mechanism failed unexpectedly" error |
| Backoff.RetryFromShape | src/lib/koncile.ts:130-143 | the same, for the loop from any iteration on |
| Backoff.FailuresThenSuccess | src/lib/koncile.ts:130-143 | k failing calls followed by a succeeding one, with k < maxRetries, return that success after exactly k + 1 calls and the k waits baseDelay·2^(i-1), i = 1..k |
| Backoff.RetryDelaysNonDecreasing | src/lib/koncile.ts:139-141 | the backoff delays never decrease |
| Backoff.DefaultSchedule | src/lib/koncile-new.ts:116-139 | with the defaults, 1 to 3 calls, and the waits are a prefix of [1000, 2000] |
| Backoff.RetryFromCounter | src/lib/koncile.ts:130-143 | a counter that each call raises by at most k, and that waiting leaves alone, rises by at most k per call over the loop |
| Backoff.RetryCounter | src/lib/koncile.ts:123-146 | the same, for a whole run |
| Backoff.WithRetry | src/lib/koncile.ts:123-146 | the `for` loop with early return and rethrow produces exactly the run `Retry` describes |
| Koncile.UploadUrl | src/lib/koncile.ts:182-185 | the URL starts with the trailing-slash endpoint; it gets `?template_id=<id>` appended exactly when an id is given |
| Koncile.SanitizeFileName | src/lib/koncile.ts:192 | same length; each character is kept if it is in [A-Za-z0-9_.-] and is '_' otherwise |
| Koncile.SanitizeIdempotent | src/lib/koncile.ts:192 | sanitising twice changes nothing more |
| Koncile.UploadError | src/lib/koncile.ts:224-247 | ECONNABORTED and ETIMEDOUT give the timeout message; every other axios error gives "Upload failed: <status or Network Error> - <data or message>" |
| Koncile.UploadErrorText | src/lib/koncile.ts:244-246 | the prefix of that message, "Network Error" when there is no response, and a detail that prefers the response body |
| Koncile.Classify | src/lib/koncile.ts:267-283 | one poll attempt finishes iff the reply is JSON with DONE, returning that task; it is pending iff DUPLICATE or IN PROGRESS; anything else raises |
| Koncile.PollFromOutcome | src/lib/koncile.ts:259-298 | from attempt a: 1 to 31-a fetches, all for the task id; one 2000 ms wait between consecutive fetches; no earlier fetch saw DONE; success iff the last fetch is DONE; an error only on the last attempt, and it is that attempt's own error or the timeout |
| Koncile.PollOutcome | src/lib/koncile.ts:256-301 | `pollTaskStatus`: 1 to 30 fetches and n - 1 waits; the first DONE task is returned; an error only after all 30 attempts |
| Koncile.PollDone | src/lib/koncile.ts:267-298 | a successful poll returns the task of its last fetch, and that fetch saw DONE |
| Koncile.PollAllPending | src/lib/koncile.ts:285-300 | 30 pending replies in a row end in "Task <id> did not complete within timeout period" |
| Koncile.PollTaskStatus | src/lib/koncile.ts:256-301 | the counted loop with its try and catch equals `Poll` |
| Koncile.ToRaw | src/lib/koncile.ts:324-327 | the copied entry keeps `value` and `confidence_score` |
| Koncile.FirstLines | src/lib/koncile.ts:331-340 | the line writes are empty exactly when every line list is empty |
| Koncile.LastForFirstLines | src/lib/koncile.ts:331-340 | the last line write to a key is the first element of that key's list, if the list exists and is non-empty |
| Koncile.MergeLookup | src/lib/koncile.ts:319-341 | a merged key holds the first element of its non-empty line list, otherwise its general field, otherwise nothing (later writes win) |
| Koncile.MergeEmpty | src/lib/koncile.ts:343-348 | the merge is empty iff there are no general fields and every line list is empty |
| Koncile.MergeTaskFields | src/lib/koncile.ts:319-341 | the two `forEach` passes build exactly `MergeFields` |
| Koncile.CopyGeneralFields | src/lib/koncile.ts:322-329 | the `General_fields` pass copies every field under its own key, in order |
| Koncile.WriteFirstLines | src/lib/koncile.ts:331-341 | the `Line_fields` pass writes the first element of each non-empty list over the data, empty lists skipped |
| Koncile.PipelineOutcome | src/lib/koncile.ts:309-348 | one upload with the built URL and the sanitised name; only the first task id is polled, at most 30 times; no task ids is an error; a result is the non-empty merge of the DONE task the last status fetch returned |
| Koncile.PipelineResult | src/lib/koncile.ts:309-348 | a successful run returns the merge of the task its last status fetch saw DONE |
| Koncile.FallbackOnce | src/lib/koncile.ts:350-357 | a second, template-less run happens exactly when the first failed with "404" and an id was given, and never a third; otherwise the first run's result stands |
| Koncile.UploadPollMerge | src/lib/koncile.ts:306-348 | the method body of the workflow equals `Pipeline` |
| Koncile.ExtractWithAutoClassification | src/lib/koncile.ts:363-407 | equals the workflow run without a template id, with its own error texts |
| Koncile.ExtractWithTemplate | src/lib/koncile.ts:306-358 | equals the workflow followed by the 404 fallback |
| Koncile.InvalidInputsCallNothing | src/lib/koncile.ts:468-477 | an empty buffer, a blank name or an unknown type fails with its message, and the world is unchanged |
| Koncile.TemplateOpBounds | src/lib/koncile.ts:481-483 | one attempt makes at most 2 uploads and at most 60 fetches, and no direct extraction; its results are non-empty |
| Koncile.RetriedTemplateCalls | src/lib/koncile.ts:481-483 | three attempts make at most 6 uploads and 180 fetches |
| Koncile.ExtractInvoiceDataCalls | src/lib/koncile.ts:457-517 | for every input: at most 6 uploads, at most 180 status fetches, no direct extraction |
| Koncile.ExtractInvoiceDataOutcome | src/lib/koncile.ts:485-516 | success implies valid inputs and data equal to the normalised merge of the DONE task the last status fetch returned, non-empty, with fieldsExtracted equal to the key count and the confidence equal to the mean rounded to 2 decimals; failure carries only an error |
| Koncile.ExtractInvoiceData | src/lib/koncile.ts:457-517 | the facade as a sequence of method calls equals `ExtractInvoiceDataSpec` |
| Fields.PrimitiveText | src/lib/koncile.ts:443-447 | a falsy primitive (null, false, 0) gives "" and a string gives itself |
| Fields.NormalizeField | src/lib/koncile.ts:436-448 | the confidence is never 0; objects keep their position; primitives have none |
| Fields.ValueAliasOrder | src/lib/koncile.ts:439 | the value is the first non-empty of value, text and content, and "" iff all three are empty |
| Fields.ConfidenceAliasOrder | src/lib/koncile.ts:440 | the confidence is the first non-zero of confidence_score, confidence and the fallback, else 0.9 |
| Fields.PrimitiveEntry | src/lib/koncile.ts:443-447 | a primitive gives its text, the fallback or 0.9, and no position |
| Fields.AsRaw | src/lib/koncile.ts:437-442 | a normalised field read back as an object with value and confidence_score |
| Fields.NormalizeIdempotent | src/lib/koncile.ts:436-448 | normalising a normalised field changes nothing, whatever the fallback |
| Fields.NormalizeAll | src/lib/koncile.ts:431-454 | same size; entry i keeps its key and holds the normalised value |
| Fields.NormalizeAllLookup | src/lib/koncile-new.ts:252-283 | the key list is kept exactly, and each key maps to its normalised value |
| Fields.TransformKoncileResponse | src/lib/koncile.ts:431-454 | the `forEach` builds `NormalizeAll`, and the counter equals the number of entries |
| Envelope.ValidateInputs | src/lib/koncile.ts:468-477 | succeeds iff the buffer is non-empty, the name is not blank and the type is in the table; otherwise it gives the first failing check's error, in that order |
| Envelope.Confidences | src/lib/koncile.ts:492 | the confidences, one per field, in order |
| Envelope.Succeed | src/lib/koncile.ts:488-505 | success with the data; fieldsExtracted is the key count; the reported confidence is within 0.005 of the average |
| Envelope.Fail | src/lib/koncile.ts:507-516 | a failure carries only its message |
| Envelope.SucceedEmpty | src/lib/koncile-new.ts:320-334 | no fields gives confidence 0.9 and a count of 0 |
| Envelope.SucceedConfidenceBounds | src/lib/koncile.ts:491-503 | field confidences in [0, 1] give a reported confidence in [0, 1] |
| Numbers.Round2 | src/lib/koncile.ts:502 | the result is a multiple of 0.01 within half a hundredth of x, with halves going up |
| KoncileNew.ExtractError | src/lib/koncile-new.ts:198-221 | only ECONNABORTED is a timeout; every other axios error gives "Extraction failed: <status or Network Error> - <data or message>" |
| KoncileNew.ExtractErrorText | src/lib/koncile-new.ts:218-220 | the prefix of that message, "Network Error" when there is no response, and a detail that prefers the response body |
| KoncileNew.TimedOutIsNotTimeout | src/lib/koncile-new.ts:200-202 | ETIMEDOUT is not reported as a timeout |
| KoncileNew.InvalidInputsCallNothing | src/lib/koncile-new.ts:297-306 | invalid inputs fail with their message before any extraction call |
| KoncileNew.DirectRetryTrace | src/lib/koncile-new.ts:116-139 | each retry iteration logs one extraction request to the template URL with the file's own name, and the waits are the backoff delays |
| KoncileNew.DirectRetryResult | src/lib/koncile-new.ts:163-196 | a successful retried extraction returns the data of the reply to its last call |
| KoncileNew.ExtractInvoiceDataCalls | src/lib/koncile-new.ts:306-312 | 1 to 3 extraction calls, no upload or fetch, and waits that are a prefix of [1000, 2000] |
| KoncileNew.EmptyResultSucceeds | src/lib/koncile-new.ts:317-334 | a reply with no fields is a success with 0 fields and confidence 0.9, after one call |
| KoncileNew.ExtractInvoiceDataOutcome | src/lib/koncile-new.ts:314-345 | success reports the normalised data of the reply to the last extraction call, with count and rounded mean; failure carries only an error |
| KoncileNew.ExtractInvoiceData | src/lib/koncile-new.ts:286-346 | the method equals `ExtractInvoiceDataSpec` |
| SaveRoute.ExtractFieldValue | src/app/api/save/route.ts:42-47 | a string is its own value; an object gives its value, or "" |
| SaveRoute.FindFieldValue | src/app/api/save/route.ts:49-59 | the loop with early return equals `FirstFound` |
| SaveRoute.FirstFoundIsFirstHit | src/app/api/save/route.ts:49-59 | the result is "" iff no listed name hits; otherwise it is the trimmed value of the first name that hits |
| SaveRoute.Scores | src/app/api/save/route.ts:61-68 | at most one score per entry; every extracted entry with a confidence contributes it |
| SaveRoute.ScoresAreFilteredConfidences | src/app/api/save/route.ts:61-68 | the scores are exactly the confidences of the scored entries, in order |
| SaveRoute.ScoresFromEntries | src/app/api/save/route.ts:64-68 | a value is a score iff it is the defined confidence of an object entry; only strings or undefined confidences give no scores |
| SaveRoute.CalculateAverageConfidence | src/app/api/save/route.ts:61-74 | the push loop gives 0 without scores, else the mean rounded to 2 decimals |
| SaveRoute.AverageOfBounds | src/app/api/save/route.ts:70-73 | scores in [0, 1] give an average in [0, 1] |
| SaveRoute.NormalizeEntry | src/app/api/save/route.ts:79-91 | a string gets confidence 1.0 and no position; an object gets its value or "", its confidence or 0, and its position |
| SaveRoute.NormalizeData | src/app/api/save/route.ts:76-95 | the `forEach` builds `Normalized` |
| SaveRoute.NormalizedLookup | src/app/api/save/route.ts:76-95 | the posted keys stay in order, each with its normalised entry |
| SaveRoute.ValidateRequest | src/app/api/save/route.ts:97-125 | valid iff the type is one of the three, the file name is a non-blank string and the data is a non-empty object; otherwise the first failing check's message, in source order |
| SaveRoute.ValidFileName | src/app/api/save/route.ts:112-114 | the file name check holds iff a string is present and not blank |
| SaveRoute.DatabaseFailure | src/app/api/save/route.ts:220-256 | "duplicate key" gives 409; otherwise "validation" gives 400; otherwise 500 |
| SaveRoute.DuplicateWins | src/app/api/save/route.ts:221-233 | a message with both phrases is a duplicate |
| SaveRoute.InvalidNeverSaved | src/app/api/save/route.ts:136-148 | an invalid body is a 400 with the validation message, whatever the database does |
| SaveRoute.SavedRecord | src/app/api/save/route.ts:150-174 | the record has the trimmed, non-empty name, status completed, date and month from the type's mapping, every key normalised and the key count; the confidence prefers a non-zero client value, and an absent or zero one falls through to the average of the scores |
| SaveRoute.SavePost | src/app/api/save/route.ts:127-206 | the handler's method body equals `SaveSpec` |
| UploadRoute.LastIndexOf | src/app/api/upload/route.ts:48 | the last position of the character, or -1 when it does not occur |
| UploadRoute.FileExtension | src/app/api/upload/route.ts:48 | the lowered suffix from the last dot; the whole lowered name when there is no dot |
| UploadRoute.ValidateFile | src/app/api/upload/route.ts:27-57 | valid iff non-empty, at most 10 MiB, an allowed MIME type and an allowed extension; otherwise the first failing check's message, in that order |
| UploadRoute.AcceptedNameHasExtension | src/app/api/upload/route.ts:48-54 | an accepted name contains a dot and ends, case-insensitively, with an allowed extension |
| UploadRoute.ValidateInvoiceType | src/app/api/upload/route.ts:59-72 | valid iff one of the three; an empty type is "Invoice type is required"; anything else gives the listing error |
| UploadRoute.InvalidTypeText | src/app/api/upload/route.ts:64-69 | the listing error names electricity, gas and water |
| UploadRoute.ClassifyError | src/app/api/upload/route.ts:149-163 | on the lowered text: rate limit → 429, else unauthorized → 401, else not found → 404, else 500 |
| UploadRoute.ClassifyIgnoresCase | src/app/api/upload/route.ts:154-162 | the classification does not depend on letter case |
| UploadRoute.RateLimitBeforeNotFound | src/app/api/upload/route.ts:154-163 | any message containing 429 is a rate limit, even when it also mentions 404 |
| UploadRoute.ValidationOrder | src/app/api/upload/route.ts:106-131 | the file is checked before the type; each refusal is a 400 and calls nothing |
| UploadRoute.ExtractionErrorPassedThrough | src/app/api/upload/route.ts:147-194 | a failure passes its text through unchanged, with the status classified from it; a success passes the data and the file name through |
| UploadRoute.UploadPost | src/app/api/upload/route.ts:90-205 | the method equals `UploadSpec` |
| InvoiceForm.Writes | src/components/InvoiceForm.tsx:26-28 | one (key, value) write per field, in order |
| InvoiceForm.InitialFormData | src/components/InvoiceForm.tsx:24-30 | the `forEach` builds `InitialData` |
| InvoiceForm.InitialDataLookup | src/components/InvoiceForm.tsx:24-30 | a key is present iff some field has it, and it holds the value of its last occurrence |
| InvoiceForm.HandleFieldChange | src/components/InvoiceForm.tsx:32-37 | the key gets the value; every other key is unchanged; the key set gains only that key |
| InvoiceForm.ConfidenceColor | src/components/InvoiceForm.tsx:43-48 | high iff ≥ 0.8; low iff non-zero and < 0.5; medium iff missing, 0, or in [0.5, 0.8) |
| InvoiceForm.ConfidenceText | src/components/InvoiceForm.tsx:50-55 | one of Élevé, Moyen, Faible |
| InvoiceForm.TextMatchesColor | src/components/InvoiceForm.tsx:43-55 | the text always names the colour's bucket |
| InvoiceForm.GroupOf | src/components/InvoiceForm.tsx:65-75 | the first keyword rule that matches the lowered key decides the group |
| InvoiceForm.GroupFields | src/components/InvoiceForm.tsx:57-79 | each group is the order-preserving sublist of the fields of that group |
| InvoiceForm.GroupsPartition | src/components/InvoiceForm.tsx:57-79 | the four group sizes add up to the number of fields |
| InvoiceForm.GroupMembership | src/components/InvoiceForm.tsx:65-76 | a field is in a group iff that group is `GroupOf` its key |
| InvoiceForm.SummaryPartition | src/components/InvoiceForm.tsx:207-219 | the high, medium and to-verify counts add up to the number of fields |
| InvoiceForm.SummaryVersusColor | src/components/InvoiceForm.tsx:207-219 | the summary agrees with the colour, except that a missing confidence is shown medium but counted as to verify |
| Historique.TypeLabel | src/app/historique/page.tsx:78-89 | the three French labels; any other type is returned unchanged |
| Historique.MainAmount | src/app/historique/page.tsx:114-126 | never empty; a stored value or N/A; the type's fields in order of preference |
| Historique.SearchKeepsMatches | src/app/historique/page.tsx:128-131 | keeps exactly the matching invoices, in list order |
| Historique.EmptySearchKeepsAll | src/app/historique/page.tsx:128-131 | an empty term keeps the whole list |
| Historique.StatsOf | src/app/historique/page.tsx:133-138 | each per-type count is at most the total |
| Historique.StatsSum | src/app/historique/page.tsx:133-138 | when every invoice has one of the three types, the counts add up to the total |
| Historique.DeleteRemovesExactly | src/app/historique/page.tsx:56 | removes exactly the invoices with the id; the rest stay in order; a list without the id is unchanged |
| InvoicesRoute.LeadingDigits | src/app/api/invoices/route.ts:11-12 | the longest all-digit prefix |
| InvoicesRoute.ParseInt | src/app/api/invoices/route.ts:11-12 | NaN iff no digit follows the white space and the optional sign |
| InvoicesRoute.ParseIntRoundTrip | src/app/api/invoices/route.ts:11-12 | parsing the decimal text of any integer gives that integer back |
| InvoicesRoute.ParseDefaults | src/app/api/invoices/route.ts:11-12 | "1" and "10" parse to 1 and 10 |
| InvoicesRoute.PaginationDefaults | src/app/api/invoices/route.ts:11-13 | with no parameters: page 1, limit 10, skip 0 |
| InvoicesRoute.LastPageStart | src/app/api/invoices/route.ts:13-38 | for a positive limit and total, page totalPages is the one page that starts before total and after which the next page starts at or past total; it holds at most limit records |
| InvoicesRoute.Pages | src/app/api/invoices/route.ts:38 | `Math.ceil(total / limit)`: the least p with p·limit ≥ total for positive limits; the ceiling for negative limits; Infinity for x/0; NaN for 0/0 or a NaN limit |
| InvoicesRoute.BuildQuery | src/app/api/invoices/route.ts:16-19 | the status is always completed; a type filter is added iff the type is one of the three |
| InvoicesRoute.DeleteOutcome | src/app/api/invoices/route.ts:51-86 | succeeds iff the connection works, an id is given, the store holds it and the delete works, and then removes exactly it; a failed connection is a 500 even without an id; otherwise 400 without an id and 404 for an unknown id; every failure leaves the store unchanged |
| InvoicesRoute.PageListFollowsStore | src/app/api/invoices/route.ts:65-77 | after a successful delete, every invoice still listed is still stored |
| InvoicesRoute.PostResponse | src/app/api/invoices/route.ts:88-93 | always 405 "Method not allowed" |

## Left out

- **HTTP transport.** axios, `fetch`, multipart `FormData`, keep-alive agents, `validateStatus` and timeouts are not modelled. Each endpoint is a scripted reply per call. `Transport.AxiosError` keeps only code, status, body text and message.
- **The sleep log is a plain field of `World`.** It is not a ghost field: a ghost part would keep the members that return a `World` out of the count. No control flow reads it.
- **Clocks.** `performance.now`, `Date.now` and `processingTime`, `createdAt`, `savedAt` and other timestamps are left out. Envelopes and responses have no such fields.
- **Logging and configuration.**
  - `KoncileLogger` and all console output have no effect on results and are not modelled.
  - Environment variables and the API key are not modelled: the client is just its `apiUrl`.
  - The constructor's missing-key throw cannot happen, because of the built-in fallback.
- **Connection probes and health routes.** `testConnection`, `testKoncileConnection` and the `GET` health routes of the save and upload endpoints are network probes and are left out.
- **Persistence.** MongoDB and `dbConnect` are parameters:
  - the save route takes the parsed body, or the thrown message, plus the save error;
  - `DELETE` takes the stored id set, a flag for a failing `dbConnect` and a flag for a failing `findByIdAndDelete`;
  - `GET`'s `find` and `countDocuments` are not modelled, beyond the query and the paging numbers.
- **Integer-like keys.** `JsObject.Obj` keeps every key in insertion order. JavaScript lists integer-like keys such as "0" or "42" before the others, in ascending numeric order. Field names from the extraction service, from the form and from the save body are kept in insertion order here even when they look like integers.
- **Prototype keys.** `templateMap[...]` on inherited keys such as "constructor" is not modelled: only own keys are.
- **Regular expressions are not modelled.** They become substring tests on the lowered text. `toLowerCase` covers ASCII and Latin-1 letters. `trim` covers the ECMAScript white-space set.
- **UTF-16 code units are not modelled.** Strings are sequences of code points, so a character outside the BMP counts as one, not two.
- **JavaScript values.** Raw values are only objects, strings, integers, booleans and null. Number-to-string conversion of non-integers is not modelled, and neither are non-string values where the source's types say string.
- **Fields.PrimitiveText:** a numeric primitive is written with `IntToString`, for integers only.
- **InvoicesRoute.ParseInt:** the `0x` hexadecimal prefix that `parseInt` also accepts is not modelled; the result is decimal.
- **InvoicesRoute.Pages:** `total` and `limit` are integers, not IEEE doubles.
- **UploadRoute.UploadPost:** the success message, which formats the confidence as text, is not modelled. The catch that answers `INTERNAL_ERROR` on a thrown error is not modelled: only well-formed forms are. The request log (`logRequest`) is not modelled either.
- **SaveRoute.SavePost:** the response's spread of the client's `metadata` and the database id are not modelled.
- **A single copy of shared code.** `getTemplateId`, `withRetry` and `transformKoncileResponse` of src/lib/koncile-new.ts are the same definitions as in src/lib/koncile.ts (modules `Template`, `Backoff`, `Fields`). They are not modelled twice.
- **UI.** JSX rendering, the per-type pages, `formatDate` and the label tables of src/types are not part of this model.
