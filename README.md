# encryptedssm reconciliation engine, in Dafny

This project models the core of the Terraform provider `encryptedssm`. The provider manages one
AWS Systems Manager (SSM) Parameter Store parameter whose value is declared as a KMS-encrypted,
base64-encoded ciphertext. The provider decrypts that ciphertext and writes the plaintext to the
store. Its state only ever shows the declared ciphertext, or the sentinel
`"Outdated sensitive value"` when the stored plaintext no longer matches it.

Two pieces are modelled:

- **The tag-set algebra** of `encryptedssm/util.go` (modules `Tags`, `TagLaws`, `Util`).
  - A tag set maps a key to a possibly nil `TagData`. Every Go pointer or map that may be nil is
    an `Option`, so a nil map and an empty map stay different, as they are for
    `reflect.DeepEqual`.
  - Each operation appears twice: as a map-comprehension specification, and as the loop the
    source runs, proved equal to it for every iteration order.
  - The laws say how the filters compose. They also say that `Removed` and `Updated` are exactly
    the patch that turns the old set into the new one. From this, a tag reconciliation from the
    prior tags leaves exactly the declared user tags in the store.
- **The reconciliation engine** of `encryptedssm/resource_encryptedssm_parameter.go` (modules
  `Retry`, `RetryLaws`, `Resource`, `ResourceLaws`).
  - Terraform's `schema.ResourceData` is the class `ResourceData`: one field per attribute, plus
    the prior description and tags that `GetChange` reports.
  - The provider's `AWSClient` is the class `AwsClient`. It holds the store, the tag-ignoring
    configuration, a fetch budget, and base64 decoding and KMS decryption as opaque functions.
  - Read, Put and Delete are methods that update `ResourceData` and drive the store. Their
    contracts give the new state of the resource and of the store, and the exact requests sent,
    for every outcome. Put's outcome is the predicate `Resource.WritesPlaintext`; lemmas about
    that predicate state what it means for a caller.

The Parameter Store is the class `SsmStore.ParameterStore`. Its fields are its remote state:
- the records;
- the tags per resource;
- a per-name countdown that hides a freshly written `aws:ec2:image` parameter from the next
  fetches while its asynchronous validation runs;
- the describe index, which may lag behind the records;
- the set of operations the credentials may not use.

Every store operation is deterministic in that state. A ghost log records every request the
store receives, so contracts can say which requests the engine sends and in what order.

The SDK's `resource.Retry` is not part of the source. Its behaviour is modelled in `Retry.RetryFetch`:
- A retryable failure is retried.
- Any other failure ends the retry with that error.
- When the window closes after retryable failures, the result is the last retryable error.
- The first attempt runs at once. When an attempt is still in flight once the window and its
  grace period have passed, the result is a timeout error with no last error.

The two-minute wall clock becomes `budget`, the number of attempts that complete inside the window.
Budget 0 stands for "no attempt completed".

Go's `string(bytes)` is modelled as one character per byte (`Resource.BytesToString`).

Put always writes. The plaintext comparison happens only in Read
(encryptedssm/resource_encryptedssm_parameter.go:171-176), to choose what the state shows.

`Config.Client` (encryptedssm/config.go:126-129) builds the `AWSClient` without an
`IgnoreTagsConfig`, so in the provider as written that configuration is always nil. The model
keeps it as a parameter. The tag convergence results (`Resource.PutConvergesTags`,
`Resource.TagStepConverges`) assume it is absent. They also assume that the store's user tags
equal the prior tags recorded in state.

## Model

| member | source | states |
|---|---|---|
| `Tags.IgnoreAws` | encryptedssm/util.go:20-30 | keeps exactly the keys without the "aws:" prefix, with their data unchanged |
| `Tags.ApplyIgnoreConfig` | encryptedssm/util.go:33-42 | no configuration is the identity; otherwise a key is kept iff it matches no ignored prefix and is not an ignored key, with its data unchanged |
| `Tags.IgnorePrefixes` | encryptedssm/util.go:45-66 | a key is kept iff no key of the prefix set is a prefix of it; kept data unchanged |
| `Tags.MatchesIgnoredPrefix` | encryptedssm/util.go:51-56 | the inner loop with its early break says "ignore" iff some prefix of the set matches |
| `Tags.Map` | encryptedssm/util.go:69-82 | same key set; "" for a nil TagData or a nil Value, the value otherwise |
| `Tags.Ignore` | encryptedssm/util.go:85-97 | keeps exactly the keys absent from the ignore set, data unchanged |
| `Tags.New` | encryptedssm/util.go:131-194 | builds, for every input shape of the type switch, the tag set `TagsFrom` describes (values wrapped, nil pointers kept nil, list elements mapped to nil data, anything else empty) |
| `Tags.TagEach` | encryptedssm/util.go:134-174 | the per-entry loop of the map cases of New: same keys, each datum computed from its own entry |
| `Tags.TagKeys` | encryptedssm/util.go:175-190 | the list cases of New: exactly the listed keys, each with nil data |
| `Tags.Keys` | encryptedssm/util.go:235-243 | lists every key of the set exactly once (no duplicates) |
| `Tags.Removed` | encryptedssm/util.go:262-272 | exactly the keys of the old set missing from the new one, with their old data |
| `Tags.Updated` | encryptedssm/util.go:275-285 | exactly the keys of the new set absent from the old one or held with unequal data, with their new data |
| `Tags.Equal` | encryptedssm/util.go:287-309 | true iff both sides are nil, or both non-nil with equal extra-field maps (nil distinct from empty) and equal Value: structural equality, hence reflexive and symmetric |
| `TagLaws.NonAwsIsPrefixFilter` | encryptedssm/util.go:20-30 | dropping "aws:" keys is prefix filtering with the single prefix "aws:" |
| `TagLaws.FiltersAreIdempotent` | encryptedssm/util.go:33-42 | filtering "aws:" keys, or applying an ignore configuration, a second time changes nothing |
| `TagLaws.FiltersCommute` | encryptedssm/util.go:219 | dropping "aws:" keys and applying the ignore configuration can be done in either order |
| `TagLaws.FilteredTagsAreSubMap` | encryptedssm/util.go:219 | the tags Read presents are a sub-map of the listed tags |
| `TagLaws.DiffsAreDisjoint` | encryptedssm/util.go:262-285 | no key is both removed and updated; no removed key is in the new set |
| `TagLaws.DiffsPatchOldIntoNew` | encryptedssm/util.go:262-285 | dropping the removed keys from the old set and writing the updated ones yields the new set exactly |
| `TagLaws.NoDiffIffEqual` | encryptedssm/util.go:262-285 | both diffs are empty iff the two tag sets are equal |
| `TagLaws.StringMapRoundTrip` | encryptedssm/util.go:142-174 | a string map survives New followed by Map, for both string-map shapes |
| `TagLaws.KeyListHasEmptyValues` | encryptedssm/util.go:175-190 | a key list becomes tags that Map reports as empty strings |
| `TagLaws.EqualSeparatesNilFromEmpty` | encryptedssm/util.go:296-304 | Equal tells a nil extra-field map from an empty one |
| `Util.ShouldUpdateSsmParameter` | encryptedssm/util.go:311-320 | an explicit overwrite wins; without one, overwrite iff the resource is not new |
| `Util.SsmListTags` | encryptedssm/util.go:102-115 | one list request; a refusal returns the store's error, otherwise the listed tags as a tag set |
| `Util.SsmKeyValueTags` | encryptedssm/util.go:118-126 | the listing becomes the tag set New builds from a string-pointer map |
| `Util.ListedTagsKeepValues` | encryptedssm/util.go:118-126 | a listing keeps every key and value, and no listed datum is nil |
| `Util.TagDiffs` | encryptedssm/util.go:200-203 | the removed and updated diffs of the two inputs, as tag sets built by New |
| `Util.UntagResource` | encryptedssm/util.go:203-215 | a remove request only when something was removed, naming exactly the removed keys without "aws:"; the store's refusal (access, missing resource) is the result; on error the tags are untouched, on success those keys are gone from the resource; no other resource's tags change |
| `Util.TagResource` | encryptedssm/util.go:217-229 | an add request only when something was added or changed, carrying exactly the updated tags without "aws:"; the store's refusal is the result; on error the tags are untouched, on success they are written over the resource's tags; no other resource's tags change |
| `Util.SendTagDiffs` | encryptedssm/util.go:203-229 | the two requests for given diffs: error, requests and resulting tags are those of `TagUpdateOutcome`; a refused remove changes no tag; no other resource's tags change |
| `Util.SsmUpdateTags` | encryptedssm/util.go:199-232 | the error, the requests and the resulting tags of the resource are those of `TagReconciliation`: a remove request only when something was removed, an add request only when something was added or changed, a refused remove returns before any add and changes nothing, a refused add keeps the removal, errors wrapped as untagging/tagging errors; no other resource's tags change |
| `Util.ReconciliationConverges` | encryptedssm/util.go:199-232 | if the store's user tags were the old set, after both requests they are the new set, and "aws:" tags are untouched |
| `Util.DeclaredReconciliationConverges` | encryptedssm/resource_encryptedssm_parameter.go:296-302 | reconciling from the prior declared tag map to the declared one leaves the declared user tags |
| `Retry.FetchWithRetry` | encryptedssm/resource_encryptedssm_parameter.go:122-136 | the retry loop returns what the attempt-by-attempt specification of the retry returns, sends that many GetParameter requests, and leaves the store's validation countdown accordingly |
| `Retry.FetchForRead` | encryptedssm/resource_encryptedssm_parameter.go:122-140 | the retry followed by the last-chance request after a timeout without last error |
| `RetryLaws.TimeoutIffNoAttempt` | encryptedssm/util.go:330-333 | the retry ends in a timeout without last error iff no attempt completed in the window |
| `RetryLaws.LastChanceOnlyWithoutBudget` | encryptedssm/resource_encryptedssm_parameter.go:138-140 | the last-chance request is sent iff no attempt completed in the window (budget zero), and then the fetch is that single request |
| `RetryLaws.NotRetryableIsSingleFetch` | encryptedssm/resource_encryptedssm_parameter.go:127-133 | without the retry condition every error stops the loop: the fetch is one request |
| `RetryLaws.RetrySucceedsOnlyWithStored` | encryptedssm/resource_encryptedssm_parameter.go:123-136 | a successful retry returns the record filed under the name, and only if fetching is allowed |
| `RetryLaws.FetchSucceedsOnlyWithStored` | encryptedssm/resource_encryptedssm_parameter.go:123-140 | the same for the whole fetch, last chance included |
| `RetryLaws.EventuallyVisible` | encryptedssm/resource_encryptedssm_parameter.go:127-129 | a new EC2 image parameter hidden for fewer fetches than the budget is found after exactly that many misses |
| `RetryLaws.ValidationOutlastsBudget` | encryptedssm/resource_encryptedssm_parameter.go:127-129 | hidden for the whole budget, every attempt is used and the "could not be validated" error results |
| `RetryLaws.MissingRetriedUntilBudget` | encryptedssm/resource_encryptedssm_parameter.go:127-129 | a missing parameter of a new EC2 image resource is retried to the end of the budget, and the error does not read as ParameterNotFound |
| `RetryLaws.VanishedIsNotFound` | encryptedssm/resource_encryptedssm_parameter.go:142-146 | a parameter missing under an existing resource ends the fetch with ParameterNotFound |
| `RetryLaws.RetryStaysInBudget` | encryptedssm/resource_encryptedssm_parameter.go:123-136 | the retry sends at most one request per attempt that completes in the window |
| `RetryLaws.FetchStaysInBudget` | encryptedssm/resource_encryptedssm_parameter.go:123-140 | the fetch sends at least one request, and at most one per completed attempt plus the last-chance one |
| `Resource.BytesToString` | encryptedssm/resource_encryptedssm_parameter.go:172 | one character per byte, in order |
| `Resource.DisplayedValue` | encryptedssm/resource_encryptedssm_parameter.go:171-176 | the shown value is the declared ciphertext or the sentinel, and the declared ciphertext iff the decryption equals the stored plaintext (or the declared value is the sentinel) |
| `Resource.PutRequestFor` | encryptedssm/resource_encryptedssm_parameter.go:263-281 | the write carries the plaintext, the declared tier, the overwrite flag of shouldUpdateSsmParameter, the data type only when set, and the description only when it changed |
| `Resource.PresentTags` | encryptedssm/resource_encryptedssm_parameter.go:219 | listed tags minus "aws:" keys and ignored keys, as plain strings |
| `Resource.ReadDetails` | encryptedssm/resource_encryptedssm_parameter.go:183-225 | a refused describe is an error; an empty describe drops the resource (empty id) without error; otherwise the described metadata is shown (tier Standard when none is reported), then the presented tags and the arn, or the listing error |
| `Resource.ReadTags` | encryptedssm/resource_encryptedssm_parameter.go:212-222 | one list request; a refusal is returned as a listing error with tags and arn left as they were; otherwise the presented tags and the record's arn are shown |
| `Resource.ReadFetched` | encryptedssm/resource_encryptedssm_parameter.go:152-181 | a decode or decrypt failure changes nothing; otherwise name, type, version and the displayed value are shown, then the details |
| `Resource.Read` | encryptedssm/resource_encryptedssm_parameter.go:111-226 | the state after Read and the requests sent, for every outcome of the fetch, the decryption, the describe and the listing; ParameterNotFound on an existing resource drops it without error; the id is kept or cleared; the shown value is the declared ciphertext or the sentinel; no tag is ever written |
| `Resource.WriteWithTierFallback` | encryptedssm/resource_encryptedssm_parameter.go:284-289 | one write, and exactly one more without a tier when the first is refused for an unsupported tier; the refusal of the request that decides; a refused write changes no record, tag, countdown or index entry; a successful one files the record under its name, lists it in the describe index, starts the validation countdown of an "aws:ec2:image" parameter and gives a new parameter an empty tag set |
| `Resource.ReconcileTags` | encryptedssm/resource_encryptedssm_parameter.go:296-302 | nothing when the declared tags equal the prior ones; otherwise the error, requests and resulting tags of SsmUpdateTags from the prior tags to the declared ones (`DeclaredTagUpdate`); no other resource's tags change |
| `Resource.TagStepConverges` | encryptedssm/resource_encryptedssm_parameter.go:296-302 | premise: the store's user tags are the prior ones; a tag step that succeeds leaves exactly the declared user tags, whether or not the tags changed |
| `Resource.ReadBack` | encryptedssm/resource_encryptedssm_parameter.go:306 | reading back a freshly written record: the fetch's requests and countdown; a failed fetch changes only the id (dropped without error on ParameterNotFound for an existing resource, kept with a read error otherwise); a successful one shows the record's name, type and version, the declared ciphertext (never the sentinel) and the described details, tags and arn (`ReadsBackWrite`) |
| `Resource.ReadBackWritesNoTags` | encryptedssm/resource_encryptedssm_parameter.go:306 | the read-back only appends requests to the log, and none of them writes tags |
| `Resource.ReadBackShowsRecord` | encryptedssm/resource_encryptedssm_parameter.go:306 | a read-back that succeeds and keeps the resource identifies it by the record's name and shows the prior ciphertext and the record's presented tags |
| `Resource.ReconcileAndRead` | encryptedssm/resource_encryptedssm_parameter.go:295-306 | premises: the record holds the plaintext of the declared ciphertext, the tag step outcome is `DeclaredTagUpdate` over the store's current tags; the resource's tags become the step's; a failed tag step is wrapped as an update-tags error with state and countdowns untouched; otherwise the id becomes the name and the record is read back as `ReadsBackWrite` says; no other resource's tags change |
| `Resource.WriteDecrypted` | encryptedssm/resource_encryptedssm_parameter.go:263-306 | the store stays well formed and the outcome is `WritesPlaintext`: a refused write is fatal with nothing changed; after a successful write, the stored record, index entry and countdown, the tag step's requests and tags, then the read-back of the written record |
| `Resource.Put` | encryptedssm/resource_encryptedssm_parameter.go:243-307 | decode or decrypt failure sends nothing and changes nothing; otherwise the outcome is `WritesPlaintext` for the decrypted plaintext: the exact write requests, including the tier fallback, the stored record, the tag requests, errors and resulting tags, and the read-back |
| `Resource.PutNeverClobbers` | encryptedssm/resource_encryptedssm_parameter.go:263-293 | a Put of a new resource without an explicit overwrite on an existing name fails with a create error and leaves every record as it was |
| `Resource.PutShowsDeclaredCiphertext` | encryptedssm/resource_encryptedssm_parameter.go:304-306 | after Put the id is kept, becomes the declared name, or is cleared; a Put that succeeds and keeps the resource shows the declared name and the declared ciphertext |
| `Resource.PutTagFailureKeepsState` | encryptedssm/resource_encryptedssm_parameter.go:296-302 | a tag error from Put arises only when the declared tags differ from the prior ones, and leaves the resource's state untouched |
| `Resource.PutWithoutTagChangeWritesNoTags` | encryptedssm/resource_encryptedssm_parameter.go:296 | with the declared tags equal to the prior ones Put sends no add or remove tag request |
| `Resource.PutConvergesTags` | encryptedssm/resource_encryptedssm_parameter.go:296-306 | premises: no ignore configuration, and the store's user tags equal the prior tags; a Put that succeeds and keeps the resource shows exactly the declared user tags |
| `Resource.Delete` | encryptedssm/resource_encryptedssm_parameter.go:228-241 | one delete request by the declared name; every refusal, ParameterNotFound included, is reported with the id; on success the record, tags, countdown and index entry are gone |
| `Resource.ShownTagsWithoutConfig` | encryptedssm/resource_encryptedssm_parameter.go:213-221 | with no ignore configuration Read shows exactly the listed user tags |
| `Resource.FetchedIsStored` | encryptedssm/resource_encryptedssm_parameter.go:152-154 | the fetched record is the one filed under the resource's id |
| `ResourceLaws.ForceNewExactlyWhenStoreRefuses` | encryptedssm/resource_encryptedssm_parameter.go:101-106 | replacement is forced exactly for the in-place update the store would refuse as a downgrade |
| `ResourceLaws.InPlaceUpdateNeverDowngrades` | encryptedssm/resource_encryptedssm_parameter.go:101-106 | when the tier change does not force replacement, Put's write (with its retry without a tier) is never refused as a downgrade |
| `ResourceLaws.BytesToStringInjective` | encryptedssm/resource_encryptedssm_parameter.go:172 | two byte strings convert to the same string iff they are equal |
| `ResourceLaws.ShownIffSamePlaintext` | encryptedssm/resource_encryptedssm_parameter.go:171-176 | the declared ciphertext is shown iff it decrypts to exactly the stored plaintext bytes (or is the sentinel) |
| `ResourceLaws.ShownIsNeverThePlaintext` | encryptedssm/resource_encryptedssm_parameter.go:171-180 | what Read shows is never the stored plaintext, unless the declared ciphertext or the sentinel equals it |

## Left out

- The AWS SDK, KMS and the network. The store is `SsmStore.ParameterStore`. It returns errors by
  code and decides them from its own state. Which store behaviours are assumed is written in its
  module comment.
- Tier downgrades. The store refuses an overwrite that moves an advanced parameter to the standard
  tier, and checks this after ParameterAlreadyExists. The source only explains this refusal in a
  comment.
- Base64 decoding and KMS decryption. They are opaque functions of `AwsClient`. `kmsDecrypt`
  (lines 309-321) only re-wraps the SDK error message, which is the `string` of its failure.
- The wall-clock timeout of `resource.Retry`. It is replaced by `AwsClient.creationValidationPolls`,
  the number of attempts that complete in the two-minute window. The polling delay is not modelled.
- `Retry.RetryFetch`: an attempt still in flight when the window and its grace period have passed
  is not modelled. Its GetParameter request is sent and may count down the store's validation
  countdown, but its answer is dropped. The model sends no request for it: budget 0 stands for
  "no attempt completed", and the request log and countdown miss that one request.
- Byte strings. Every model string is a Go string, one `char` per byte. That includes the stored
  value `Parameter.value`, the plaintext written by Put and the declared ciphertext. No character
  encoding is modelled.
- Nil responses. GetParameter and DescribeParameters are assumed to answer with a record, or a
  list of details, or an error; never nil. A nil detail in the list is not modelled.
- Iteration order. Go ranges over maps in no particular order, so the loops pick an arbitrary
  unvisited key. The remove request's key list is logged as a set. The add request's tag list
  (`SsmTags`, lines 246-259) is logged as a map, and the listing is taken as a map from key to
  value. So the order of those lists, and duplicate keys in a listing, are not modelled.
- `ResourceType` arguments. They are a fixed constant and do not change behaviour.
- `New` with non-string interface elements. These panic in Go. The model's interface shapes
  carry only strings.
- The `map[string]*TagData` case of `New`. It is modelled as `TagDataMap`. In Go, a
  `KeyValueTags` value does not match that case, because `KeyValueTags` is a named type.
  Nothing in the core passes one.
- `d.Set("key_id", ...)`. The schema has no `key_id` attribute, so that write is a no-op (its
  error is ignored).
- Errors of `d.Set("tags", ...)`. Setting a string map on a map attribute does not fail.
- Logging, the schema's `ValidateFunc`s, the importer, the provider configuration and the
  client construction (`encryptedssm/provider.go`, `encryptedssm/config.go`).
- The message of an AWS error. Only its code is kept. The "Tier is not supported" validation
  error is its own code, `TierNotSupported`.
- Specification functions have no row of their own. The members that use them state their
  properties, and they are not separate operations of the source.
  - Tag-set filters: `NonAwsTags`, `TagsWithoutPrefixes`, `TagsWithoutKeys`, `ConfiguredTags`,
    `TagValues`, `RemovedTags`, `UpdatedTags` and `TagsFrom` specify the loop methods above.
  - Tag requests: `Util.UntagCalls`, `Util.TagCalls`, `Util.TagUpdateOutcome`,
    `Util.TagReconciliation` and `Resource.DeclaredTagUpdate` specify `UntagResource`,
    `TagResource`, `SsmUpdateTags` and `ReconcileTags`.
  - Timeout: `Util.IsResourceTimeoutError` (encryptedssm/util.go:330-333) is stated by
    `RetryLaws.TimeoutIffNoAttempt`.
  - Fetch: `Retry.RetryFetch` and `Retry.ReadFetch` specify `Retry.FetchWithRetry` and
    `Retry.FetchForRead`, and RetryLaws states their properties.
  - Tier: `Resource.TierChangeForcesNew` (encryptedssm/resource_encryptedssm_parameter.go:101-106) is stated by
    `ResourceLaws.ForceNewExactlyWhenStoreRefuses` and `ResourceLaws.InPlaceUpdateNeverDowngrades`.
    `Resource.ShownTier` (encryptedssm/resource_encryptedssm_parameter.go:206-209) is part of `Resource.ShowsDetails`, which `ReadDetails`
    ensures.
  - Decryption: `Resource.DeclaredPlaintext` (encryptedssm/resource_encryptedssm_parameter.go:245-261) is the decode-then-decrypt step that
    `ReadFetched`, `Read` and `Put` ensure about.
  - Outcome predicates: `Resource.ShowsDetails`, `Resource.ReadsBackWrite` and
    `Resource.WritesPlaintext` are the outcomes the methods ensure.
- The store's own members (`SsmStore.ParameterStore.PutParameter`, `GetParameter` and the rest)
  model the AWS service, not the source, and have no row.
