# Policy resource filtering and canonicalisation

This project models the data-shaping pipeline of infracost's policy API client
(`internal/apiclient/policy.go`), which runs before a project's resources are
uploaded for policy evaluation:

- a recursive, schema-less **value filter** that keeps only the fields a
  per-resource-type allow-list names (module `ValueFilter`);
- the **resource transformer**, which turns one resource record into the wire
  record. It builds tags (three-state, sorted by key), references (sorted by
  key, addresses in order), metadata calls and the checksum (module
  `PolicyResources`);
- the **checksum** fallback: a digest of provider name, address and raw
  values text, in that order;
- the **batch assembler**, which drops nil resources, nil resource data and
  types without an allow-list, then sorts the batch by address (module
  `Batch`);
- the **allow-list cache**, a client object whose fetch runs at most once and
  whose stored error every later call returns. It is modelled together with
  the **upload bookkeeping** that records a project's policy shas, using the
  sentinel `"0"` for an empty batch, and the handling of the policy-check
  response with its "N tag policy/policies checked" lines (module
  `PolicyClient`).

Supporting modules:
- `Wrappers` holds `Option` and `Result`.
- `Strings` holds Go's string order (`LexLess`) and decimal rendering.
- `Gjson` holds the JSON value and the accessors of `gjson.Result` that the
  code reads.
- `Sorting` holds an in-place sort by a string key and the lemmas that make a
  sorted arrangement unique.

Modelling choices:
- Network calls are inputs. A `QueryResponse` says how a GraphQL query came
  back: transport error, no results, an `errors` envelope, a decode error or
  decoded data. The upload service is a function from the call number
  (counting the client's uploads) and the batch to the response, so two
  uploads of the same batch may be answered differently. The client keeps a
  ghost log of the batches it has sent.
- SHA-256 with hex encoding is the function parameter `digest`, applied to the
  concatenated text.
- Go's `sort.Slice` is unstable. For the batch the model therefore promises
  only sortedness and a permutation. For tags and references the keys are
  distinct, so the sorted list is unique, and the model proves it equal to the
  ordered specification.
- A reference is a `ResourceData` whose address is the only field read.
  Reference graphs with cycles cannot be written as values.

Behaviour of the code that the model reproduces:
- The current resource set is uploaded before the past set. An upload error
  on the current set returns before the past set is filtered.
- Each metadata call repeats the resource's own file name and line range, as
  the code does (internal/apiclient/policy.go:343-349).

## Model

| member | source | states |
|---|---|---|
| `ValueFilter.FilterValues` | internal/apiclient/policy.go:376-402 | a key is in the output iff it is a key of the input object and of the allow-list with a `true` or object rule; the output is permitted by the allow-list at every nesting depth |
| `ValueFilter.FilterTrueRuleCopies` | internal/apiclient/policy.go:380-383 | a `true` rule maps the key to the input's raw value unchanged |
| `ValueFilter.FilterDropsUnlisted` | internal/apiclient/policy.go:378-398 | an unlisted key, a `false` rule or a rule that is neither boolean nor object removes the key |
| `ValueFilter.FilterArrayElementwise` | internal/apiclient/policy.go:384-392 | an object rule on an array gives an array of the same length whose i-th element is the nested filter of element i |
| `ValueFilter.FilterNestedObject` | internal/apiclient/policy.go:393-395 | an object rule on a non-array gives the nested filter of the value; a scalar gives an empty object |
| `ValueFilter.FilterIdempotent` | internal/apiclient/policy.go:376-402 | filtering the filtered output again with the same allow-list returns it unchanged |
| `ValueFilter.FilterInstanceExample` | internal/apiclient/policy.go:376-402 | instance type kept, block devices reduced to their volume size, secret dropped |
| `PolicyResources.SortedTags` | internal/apiclient/policy.go:311-322 | the tag list holds exactly the map's entries, one per key, strictly ascending by key |
| `PolicyResources.GatherTags` | internal/apiclient/policy.go:313-316 | the gathered tags are exactly the map's entries with distinct keys |
| `PolicyResources.CollectTags` | internal/apiclient/policy.go:312-321 | gathering and sorting in place yields the unique key-sorted tag list |
| `PolicyResources.TagsThreeState` | internal/apiclient/policy.go:311-322 | nil tags give no tag list, an empty map an empty but present list, otherwise the map's entries sorted by key |
| `PolicyResources.SortedReferences` | internal/apiclient/policy.go:330-340 | one reference per key, strictly ascending by key, each with that key's addresses |
| `PolicyResources.CollectAddresses` | internal/apiclient/policy.go:332-335 | the addresses of the referenced resources in their given order |
| `PolicyResources.GatherReferences` | internal/apiclient/policy.go:330-337 | the gathered references are exactly one per key with that key's addresses |
| `PolicyResources.CollectReferences` | internal/apiclient/policy.go:330-340 | gathering and sorting in place yields the unique key-sorted reference list |
| `PolicyResources.ReferencesByKey` | internal/apiclient/policy.go:330-340 | references are sorted by key, one per key, and each address list keeps its order |
| `PolicyResources.CollectCalls` | internal/apiclient/policy.go:342-350 | the call loop returns one call per element of the `calls` metadata as `Gjson.AsArray` lists it, in order |
| `PolicyResources.CallsReuseResourceLines` | internal/apiclient/policy.go:342-372 | each call's block name comes from the call (`Gjson.Get`, then `Gjson.AsString`); its file name (`Gjson.AsString`) and line range (`Gjson.AsInt`) equal the resource-level metadata |
| `PolicyResources.Checksum` | internal/apiclient/policy.go:352-357 | a non-empty recorded checksum is used; otherwise `CalcChecksum` (policy.go:404-411), the digest of provider name ++ address ++ raw values text |
| `PolicyResources.ChecksumDeterministic` | internal/apiclient/policy.go:352-357 | equal provider, address, raw text and recorded checksum give an equal checksum, whatever the allow-list |
| `PolicyResources.ChecksumInputSeparatesSingleChanges` | internal/apiclient/policy.go:404-411 | if only one of the three hashed fields differs, the digest input differs |
| `PolicyResources.ChecksumInputBoundaryShift` | internal/apiclient/policy.go:405-408 | fields are hashed without a separator, so shifting text between provider name and address gives the same digest input |
| `PolicyResources.ValuesArePermitted` | internal/apiclient/policy.go:324-325 | the uploaded values hold no field the allow-list does not permit, at any depth |
| `PolicyResources.FilterResource` | internal/apiclient/policy.go:310-374 | the record built equals the specified transform: type, provider and address copied, tags, filtered values, references, calls, checksum and line metadata |
| `Sorting.SortBy` | internal/apiclient/policy.go:303-305 | the array ends sorted by the key, ordered by Go's string `<` (`Strings.LexLess`), and is a permutation of its old contents |
| `Batch.FilterResources` | internal/apiclient/policy.go:292-308 | the batch is sorted by address and is a permutation of the transforms of the selected resources |
| `Batch.ExpectedMembership` | internal/apiclient/policy.go:294-300 | a record is in the batch iff it is the transform of a non-nil resource with data whose type is allow-listed |
| `Batch.ExpectedTypesAllowListed` | internal/apiclient/policy.go:297 | every uploaded record has an allow-listed resource type |
| `Batch.ExpectedEmpty` | internal/apiclient/policy.go:292-308 | the batch is empty iff no input is selected |
| `Batch.BatchContents` | internal/apiclient/policy.go:292-308 | the assembled batch has one record per selected resource, is empty iff none is selected, and holds only allow-listed types |
| `PolicyClient.BuildAllowLists` | internal/apiclient/policy.go:465-469 | the map-filling loop yields the allow-list map of the response |
| `PolicyClient.AllowListsKeys` | internal/apiclient/policy.go:465-469 | the map names exactly the types that occur in the response |
| `PolicyClient.AllowListsLastWins` | internal/apiclient/policy.go:467-469 | for a repeated type, the last entry's rule tree is kept |
| `PolicyClient.GetPolicyResourceAllowList` | internal/apiclient/policy.go:427-472 | an error gives a nil map; no results give a nil map and no error; data gives the built map and no error |
| `PolicyClient.PolicyAPIClient.constructor` | internal/apiclient/policy.go:31-44 | a new client has fetched nothing and stores no allow-lists and no error |
| `PolicyClient.PolicyAPIClient.FetchAllowList` | internal/apiclient/policy.go:415-425 | the first call fetches and stores map and error; later calls fetch nothing and change nothing; every call returns the stored error |
| `PolicyClient.UploadResult` | internal/apiclient/policy.go:225-251 | no results give an empty sha and no error; data gives the sha; each failure kind gives an error |
| `PolicyClient.PolicyAPIClient.UploadProjectPolicyData` | internal/apiclient/policy.go:212-252 | the batch is appended to the upload log and the answer to that call number is read by `UploadResult` |
| `PolicyClient.Sent` | internal/apiclient/policy.go:188-199 | a resource set sends at most one batch, never an empty one, and a non-empty batch is sent |
| `PolicyClient.PolicyShaOf` | internal/apiclient/policy.go:187-207 | an empty batch records the sentinel "0" without uploading; a non-empty batch records the sha of its answer or fails with the context wrapped around the upload error |
| `PolicyClient.PolicyAPIClient.UploadBatch` | internal/apiclient/policy.go:187-207 | one resource set's step: the log grows by exactly the batches `Sent` names, and the result is `PolicyShaOf` at the next call number |
| `PolicyClient.SentinelWhenNothingSelected` | internal/apiclient/policy.go:187-196 | a resource set with nothing allow-listed records the sentinel "0" and sends nothing |
| `PolicyClient.UploadLog` | internal/apiclient/policy.go:187-207 | the batches sent are the current one (when non-empty), then the past one (when non-empty) only if the current step succeeded; no empty batch is ever sent |
| `PolicyClient.NoPastUploadAfterCurrentError` | internal/apiclient/policy.go:189-200 | after a failed current upload the error is returned, the metadata is untouched and only the current batch was sent |
| `PolicyClient.PastUploadMayFailAfterCurrentSucceeds` | internal/apiclient/policy.go:189-204 | with a service that answers only the first call, the same batch is sent twice, the current sha is kept and the past upload's wrapped error is returned |
| `PolicyClient.PolicyAPIClient.RecordPast` | internal/apiclient/policy.go:198-207 | the past batch is sorted and a permutation of its transforms; error, past sha and log are as `PastOutcome` gives |
| `PolicyClient.PolicyAPIClient.RecordShas` | internal/apiclient/policy.go:187-209 | both batches are sorted permutations of their transforms (the past one when reached); error, shas and log are as `ShaOutcome` gives |
| `PolicyClient.PolicyAPIClient.UploadPolicyData` | internal/apiclient/policy.go:177-210 | nil metadata is replaced by an empty record; a fetch error returns with the shas and the upload log untouched; otherwise the current sha is set before the past set is processed, an upload error stops there, and the log grows by the batches `ShaOutcome` names |
| `PolicyClient.CheckedMessage` | internal/apiclient/policy.go:140-170 | a progress line is written exactly when the count is non-zero |
| `PolicyClient.CheckedMessageShape` | internal/apiclient/policy.go:140-145 | the line starts with the count, which reads back as the count, then the singular noun for one and the plural otherwise |
| `PolicyClient.CheckPolicies` | internal/apiclient/policy.go:113-172 | errors exactly on failure responses; no results give a nil output; data gives the output and one line per non-empty policy kind, tag policies first |
| `Gjson.AsMap` | internal/apiclient/policy.go:378 | an object gives its members and any other value an empty map, as read at this line, at 385 (a nested rule) and at 468 (a rule tree) |
| `Gjson.AsArray` | internal/apiclient/policy.go:343 | a missing value or null gives no elements, an array its elements, any other value a one-element list |
| `Gjson.AsIntOfLiteral` | internal/apiclient/policy.go:346-348 | a line number given as a decimal number literal is read back as that number by `Int()`, and `String()` gives its text |
| `Gjson.ParseIntRoundTrip` | internal/apiclient/policy.go:369-371 | the integer reader accepts the decimal rendering of any number, with or without a minus sign, and returns that number |
| `Strings.NatToDecimalRoundTrip` | internal/apiclient/policy.go:145 | the `%d` rendering of a count reads back as the count |
| `Strings.LexLessIrreflexive` | internal/apiclient/policy.go:303-305 | no string sorts before itself under Go's byte-wise `<`, the order of this sort and of those at policy.go:317-319 and 338-340 |
| `Strings.LexLessTransitive` | internal/apiclient/policy.go:303-305 | the string order used by the three sorts is transitive |
| `Strings.LexLessTrichotomy` | internal/apiclient/policy.go:303-305 | any two strings are equal or one sorts before the other |

## Left out

- HTTP and GraphQL transport, query strings and retries (`doQueries`, `NewPolicyAPIClient`'s HTTP set-up): responses are inputs.
- `newRunInput` and the decoding of `evaluatePolicies` results: the policy result structures are not part of this model, so `PolicyOutput` holds them as abstract values.
- JSON parsing and serialisation. Parsed values and raw text are inputs, and the sorted-key encoding of the filtered values is not modelled. A marshalling failure, which the source logs and then uploads with nil values, is not modelled either.
- The raw text of a value under a `true` rule (`json.RawMessage`, internal/apiclient/policy.go:382): a sorted-key encoder writes it as its original text, so an object there is not re-sorted. The model keeps the parsed tree, so it does not capture this.
- Repeated members in a JSON object: the model sees an object through one map where the last member wins, as `Map()` does, but gjson's `Get` (internal/apiclient/policy.go:345) returns the first, so for a call with a repeated `blockName` the model gives the last value.
- SHA-256 and hex encoding: the function parameter `digest`.
- The `sync.Once` concurrency guarantee: only the sequential at-most-once behaviour is modelled.
- Logging and writes to the error stream: the warning for an unknown rule, the marshalling warning and the choice of sink. A failed write of a progress line, which the source turns into an error, is not modelled.
- `Gjson.AsString`: for an object or array gjson returns its raw text, and for a non-integer number a reformatted float; the model gives "" and the literal text.
- `Gjson.AsInt`: for a fractional or exponent number literal gjson truncates the float value; the model gives 0, and int64 overflow is not modelled.
- Line numbers are unbounded integers, not int64.
- A nil `*ResourceData` inside a `ReferencesMap` list: internal/apiclient/policy.go:333-334 reads `refRd.Address` and would panic on one, while the model's `seq<ResourceData>` has no nil element.
- Other fields of `schema.ProjectMetadata` and `schema.PartialResource` are not read by this code and are not modelled.
- cmd/infracost/upload.go is not part of this model (command wiring). It reads `policies.TagPolicies` (upload.go:57-58) even when `CheckPolicies` returns a nil output, which happens on every error path and when there are no results.
