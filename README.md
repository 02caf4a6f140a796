# docreader core, modelled in Dafny

docreader is a Go web service. It relays uploaded documents to an n8n automation workflow and receives the results back on a webhook. It keeps a bounded history of those results for its UI, and it can forward the extracted data to a 1C accounting system. This project models the sequential logic of that service and proves what it promises:

- **Webhook result normaliser** (`webhook.dfy`). `handleN8nWebhook` turns an arbitrary callback body into a result text and a status:
  - a non-empty `text` wins, then a non-empty `message`;
  - otherwise the text is synthesised from one `key: value` line per non-service, non-empty field;
  - a body that does not decode into a JSON object is stored verbatim, while a `null` body decodes into an empty object and so gets the placeholder;
  - an empty text becomes a fixed placeholder;
  - the status is the payload's non-empty `status`, else `completed`.
- **Bounded result history** (`store.dfy`). The process-wide `responses` slice is a class with a `seq<Record>` field and a capacity. `Append` adds at the tail and trims from the front. `Snapshot` copies the history into a fresh array, as `handleGetResults` does.
- **Webhook handler** (`handlers.dfy`). It covers the method check, the body-read failure, normalisation and the append.
- **Upload and log helpers** (`fileutil.dfy`). `isValidFileType` is a case-insensitive extension whitelist. `truncateString` returns a string of at most `maxLen` characters unchanged, and otherwise cuts it to its first `maxLen` characters and adds `...`.
- **1C client, pure half** (`onec_client.dfy`). `NewOneCClient`'s timeout default, `getStringValue`, and `ParseN8nResponse` turning a payload into the document sent to 1C.
- **1C integration service** (`onec_service.dfy`):
  - `setDefaults` repairs the configuration;
  - `applyFieldMapping` renames fields;
  - `ProcessN8nResponse` decides among disabled, mapped, auto-send and 1C's answer;
  - `SendManually` flips `AutoSend` and restores it.

Webhook logic exists twice in the repository, as near-identical revisions in `main.go` and `handlers.go`. The two differ only in comments, in logging (`main.go:241-255`, `main.go:271`, `main.go:377-378`) and in the 1C attachment (see below), so one model stands for both. The table cites whichever file states a rule most directly.

Decoded JSON is the datatype `Json`. `json.Unmarshal` is an input: `decoded: Option<Object>` is what it made of the body, and `None` means decoding failed, which includes any body that is not a JSON object. The body `null` decodes without error into a nil map, which is `Some` of the empty object. Number formatting (`%.2f`) and `json.Marshal` of nested values are the two functions of an opaque `Renderer`.

Go ranges over maps in an unspecified order. Every loop over a map is therefore modelled with a nondeterministic pick (`:|`), and the properties hold for every order:
- the normaliser returns the order it used as a ghost `order`, and its text is specified for that order;
- `LinesOrderIndependent` proves that any two orders give the same multiset of lines.

Generated identifiers and clock readings (`generateSimpleID`, `generateID`, `time.Now`) are parameters. So is the HTTP send to 1C: `send` says what `SendDocument` would answer for a document.

Three details of the code shape the model:
- **Key order.** Go ranges over the map in an unspecified order, so the model leaves the order open and proves that the multiset of lines does not depend on it.
- **Empty fields.** The fallback loop skips the service fields and also every field whose value is the empty string (`Contributes`).
- **Record id.** The stored record always gets a generated id (the `id` parameter), whatever the payload says. `ParseN8nResponse`, however, keeps a string `id` from the payload and generates one only when it is missing.

## Model

| member | source | states |
|---|---|---|
| Webhook.NormalizeWebhook | main.go:273-349 | The text is chosen in priority order: a non-empty `text`, else a non-empty `message`, else the joined lines for some enumeration of the contributing keys. A body that does not decode is stored verbatim when non-empty. The stored text is never empty. The status is the payload's non-empty `status`, else `completed`, and always `completed` for a body that does not decode. |
| Webhook.FormatEntry | main.go:304-328 | The type switch yields no line exactly for an empty string, and otherwise the entry's `key: value` line with the value rendered by its type (strings as they are, numbers to two decimals, booleans as `true`/`false`, objects and arrays as JSON, null as `<nil>`). |
| Webhook.SynthesiseLines | handlers.go:96-133 | The fallback loop visits the keys in some order and collects, for exactly the contributing keys, each key's line once, in the order visited. |
| Webhook.Lines | handlers.go:106-133 | One line per listed key, in list order, each being `key: ` followed by the value as the type switch renders it. |
| Webhook.Join | main.go:331-333 | Joining no lines gives the empty text; otherwise the text starts with the first line. |
| Webhook.StoredText | main.go:346-348 | The stored text is never empty; a non-empty chosen text is kept, an empty one becomes the placeholder. |
| Webhook.FallbackOneLinePerKey | main.go:286-333 | In the fallback branch there are exactly as many lines as contributing keys, and every contributing key has its line. No line comes from `status`, `webhookUrl`, `executionMode`, `timestamp` or `id`, or from an empty-string value. |
| Webhook.LinesOrderIndependent | handlers.go:106-136 | Any two orders in which the map loop may visit the keys yield the same multiset of lines; only their order in the text can differ. |
| Webhook.StatusOnlyPayload | handlers.go:90-152 | A payload whose only field is `status` synthesises no line, so it gets the placeholder text and keeps its status. |
| Store.KeepNewest | main.go:372-373 | Trimming keeps the smaller of `n` and the input length in elements, and they are the newest ones: a suffix of the input, in arrival order. |
| Store.ResultStore.constructor | main.go:55 | A fresh history is empty, respects its capacity and records it. |
| Store.ResultStore.Append | main.go:369-375 | After an append the history is the newest `maxResponses` records of the old history plus the new one. Without overflow it is exactly the old history plus the new record. The length bound holds afterwards. The new record is last exactly when the capacity is positive. |
| Store.ResultStore.Snapshot | handlers.go:171-175 | The snapshot is a freshly allocated array holding the history element by element, oldest first; the history itself is not modified. A valid store never hands out more than its capacity of records. |
| Store.AppendAllKeepsNewest | handlers.go:161-166 | Trimming after every append leaves the same records as appending all of them and trimming once. |
| Store.TrimThenAppend | main.go:370-374 | Appending to a trimmed history and trimming again equals appending and trimming once. |
| Store.AppendsFromEmpty | handlers.go:161-166 | From an empty history, any sequence of appends leaves exactly the newest `min(n, k)` of the `k` records, in arrival order, never more than `n`. |
| Store.CapacityTwoExample | main.go:369-375 | With capacity 2, appending A, B, C leaves [B, C]. |
| Handlers.HandleN8nWebhook | main.go:257-375 | A method other than POST gives 405 and a failed body read gives 400, neither touching the history. Otherwise the answer is 200, the history gains the normalised record (given id, stored text, given timestamp, derived status) trimmed to capacity, and the bound holds. |
| Handlers.PostToEmptyStore | handlers.go:154-166 | One POST of a payload with a non-empty `text` to an empty store of capacity 20 answers 200 and leaves exactly one record: the generated id, that text, the given timestamp and the payload's status. |
| Handlers.TestPayloadFields | main_test.go:189-193 | The test payload has a non-empty `text` and keeps its status `completed`. |
| Handlers.PostValidPayloadToEmptyStore | main_test.go:172-221 | One POST of the test payload to an empty store of capacity 20 leaves exactly one record, with the payload's text, status `completed` and the generated id. |
| FileUtil.Ext | handlers.go:257 | The extension is a suffix of the name that starts with a dot and contains no further dot or separator. It is empty only when every dot is followed by a separator. |
| FileUtil.ToLower | main.go:557 | Lower-casing keeps the length and maps each character independently. |
| FileUtil.IsValidFileType | handlers.go:256-266 | The check succeeds exactly when the lower-cased extension is one of `.pdf`, `.jpg`, `.jpeg`, `.png`. |
| FileUtil.ValidFileTypeBySuffix | main.go:556-566 | The extension check accepts exactly the names that end, ignoring case, in one of the four accepted extensions. |
| FileUtil.UpperCaseExtensionAccepted | main_test.go:27 | `test.PDF` is accepted. |
| FileUtil.NoExtensionRejected | main_test.go:26 | `noextension` has no extension and is rejected. |
| FileUtil.TruncateString | main.go:574-579 | A string within the bound is returned unchanged. A longer one becomes exactly its first `maxLen` characters followed by `...`. The result is never longer than `maxLen + 3`. |
| FileUtil.TruncateExamples | main_test.go:56-76 | The five truncation test cases. |
| OnecClient.NewOneCClient | pkg/onec/client.go:54-68 | Credentials are copied verbatim. The timeout is always positive: it is the configured one exactly when that is positive, otherwise 30 s. |
| OnecClient.GetStringValue | pkg/onec/client.go:185-190 | The value is returned when the key holds a string, otherwise the default. |
| OnecClient.ParsedFields | pkg/onec/client.go:146-165 | The fields are exactly the `extracted_data` keys plus whichever of `dates`, `amounts`, `contacts` are present. Those three keep their top-level values whatever their type and override same-named entries. Every other entry is copied from `extracted_data`. |
| OnecClient.ParsedDocument | pkg/onec/client.go:141-182 | The id is the payload's string `id`, else the generated one. The type is the payload's `document_type`, else `unknown`. The original name defaults to `unknown`, and `ProcessedBy` is always `Document AI`. |
| OnecClient.ParseN8nResponse | pkg/onec/client.go:141-182 | The copy loop and conditional inserts build exactly the document `ParsedDocument` describes. |
| OnecService.IntegrationConfig.constructor | pkg/onec/service.go:19-24 | A configuration holds the given settings. |
| OnecService.SetDefaults | pkg/onec/service.go:275-291 | A zero timeout becomes 30 and a nil mapping becomes empty. The integration stays enabled only when base URL, user and password are all set. Every other setting is unchanged, the result satisfies `Defaulted`, and an already defaulted configuration is left untouched. |
| OnecService.MappingWithoutClashes | pkg/onec/service.go:127-150 | When present sources map to distinct targets, none equal to an unmapped field or to `_target_object`, every present mapped field appears under its target with its value. |
| OnecService.OneCService.constructor | pkg/onec/service.go:63-67 | A service holds its configuration and enabled flag. |
| OnecService.OneCService.IsEnabled | pkg/onec/service.go:173-175 | Reports the service's enabled flag. |
| OnecService.OneCService.ApplyFieldMapping | pkg/onec/service.go:127-150 | Only the fields change. Their keys are the targets of the present mapped fields, the unmapped fields and `_target_object`. `_target_object` names the target object and every unmapped field keeps its value. Every other key holds the value of some present source field renamed to it. |
| OnecService.OneCService.ProcessN8nResponse | pkg/onec/service.go:71-124 | A disabled service reports success with the "integration disabled" message, no error and no send. Otherwise the result carries the parsed document's id, and the document is mapped exactly when its type has a mapping. With auto-send off the result is success and nothing is sent. A failed send reports failure with its error. 1C's answer decides success and the reference, or the rejection message. |
| OnecService.OneCService.SendManually | pkg/onec/service.go:153-170 | A disabled service refuses with the given document id, its message and an error. Otherwise the payload is processed as with auto-send on, and the configuration, `AutoSend` included, is as before. |

## Left out

- HTTP transport: upload relay to n8n, home page, server start-up, health check, the 1C status and manual-send endpoints, JSON response writers and routes. These are request plumbing around the modelled logic.
- The network side of 1C: `SendDocument`, `TestConnection`, `NewOneCService` and `GetStatus`. The answer of `SendDocument` is the `send` parameter. The service constructor takes the enabled flag that the connection test would have decided.
- Configuration loading from the environment and files (`initEnvVariables`, `loadConfig`, `overrideFromEnv`). These are I/O. `maxResponses` is the store's capacity, and a negative value, which would make the trimming slice panic, is excluded by its type `nat`.
- Identifier generation and clocks: ids and timestamps are parameters. Their uniqueness and monotonicity rest on the clock and are not modelled.
- Floating point: `%.2f` formatting is the opaque `Renderer.fixed2`. `FileSize` and `Confidence` are not part of `DocumentMetadata` here, because `getInt64Value` and `getFloat64Value` only convert floats.
- The JSON codec. Decoding is the `decoded` input, and a body decoding to JSON `null` is an empty object. Marshalling nested values is `Renderer.marshal`, assumed to succeed as it does for every decoded value, so no line is dropped for a marshal error.
- The `case int` branch of the type switch: decoding never produces an `int`, so it is unreachable and has no counterpart in `Json`.
- The mutex around `responses`: each store method is one critical section, run sequentially.
- The attachment of a 1C result to the stored record (`OneCStatus`, only in `main.go`): a call into the 1C service whose outcome only annotates the record, so `Record` has no such field.
- Logging.
- Webhook.Join: only the empty case and the first line being a prefix are stated; the joined text is not split back into its lines.
- FileUtil.Ext: only `/` separates path elements, as on Unix; Windows' `\` separator is not modelled. No accepted extension contains a separator, so `IsValidFileType` is unaffected.
- FileUtil.ToLower: only ASCII letters are lowered; Unicode case mapping is not modelled.
- FileUtil.TruncateString: strings are sequences of Unicode characters, so lengths count characters where Go's `len` counts UTF-8 bytes. The two agree on ASCII text. On multi-byte text Go may cut inside a character (`truncateString("Привет", 3)` is the letter П, one stray byte and `...`), while the model keeps whole characters (`При...`).
- OnecClient.NewOneCClient: the `time.Duration` multiplication is taken without its 64-bit overflow.
- OnecService.ApplyFieldMapping: when two present sources share a target, which value wins depends on Go's map order, so the contract states only that the value comes from one of them.
