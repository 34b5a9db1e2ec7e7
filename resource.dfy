/** The reconciliation engine of encryptedssm/resource_encryptedssm_parameter.go: Read, Put
    (both create and update) and Delete of one SSM parameter whose value is declared as a
    KMS-encrypted, base64-encoded ciphertext.

    The declared ciphertext is decrypted on the engine's side and the plaintext is written to the
    store; the state only ever shows the declared ciphertext, or a fixed sentinel when the stored
    plaintext no longer matches it. */
module Resource {
  import opened Wrappers
  import opened Tags
  import opened SsmStore
  import opened Errors
  import opened Util
  import opened Retry
  import RetryLaws

  /** What the state shows instead of the declared ciphertext once the stored plaintext differs. */
  const OutdatedSensitiveValue := "Outdated sensitive value"

  newtype byte = x: int | 0 <= x < 0x100
  type Bytes = seq<byte>

  /** Go's `string(b)`: one character per byte. */
  function BytesToString(b: Bytes): (s: string)
    ensures |s| == |b|
    ensures forall i :: 0 <= i < |b| ==> s[i] as int == b[i] as int
  {
    seq(|b|, i requires 0 <= i < |b| => (b[i] as int) as char)
  }

  /** The ForceNewIfChange rule on "tier": moving from Advanced to Standard replaces the
      parameter, because the store refuses to downgrade a parameter in place. */
  function TierChangeForcesNew(oldTier: string, newTier: string): bool {
    oldTier == ParameterTierAdvanced && newTier == ParameterTierStandard
  }

  /** The value the state shows: the declared ciphertext when the declared ciphertext decrypts to
      the stored plaintext, the sentinel otherwise. */
  function DisplayedValue(declared: string, decrypted: string, stored: string): (shown: string)
    ensures shown == declared || shown == OutdatedSensitiveValue
    ensures shown == declared <==> decrypted == stored || declared == OutdatedSensitiveValue
  {
    if decrypted == stored then declared else OutdatedSensitiveValue
  }

  /** The tier the state shows for a described tier: Standard when the store reports none. */
  function ShownTier(tier: Option<string>): string {
    if tier.Some? then tier.value else ParameterTierStandard
  }

  /** What the provider hands to every operation: the store client, the tag-ignoring
      configuration, the budget of fetches that fit in the two-minute creation-validation window,
      and the two opaque transformations (base64 decoding and KMS decryption, the latter failing
      with an error message). */
  class AwsClient {
    const ssmconn: ParameterStore
    const ignoreTagsConfig: Option<IgnoreConfig>
    const creationValidationPolls: nat
    const base64Decode: string -> Option<Bytes>
    const kmsDecrypt: (string, Bytes) -> Result<Bytes, string>

    constructor (ssmconn: ParameterStore, ignoreTagsConfig: Option<IgnoreConfig>, creationValidationPolls: nat,
                 base64Decode: string -> Option<Bytes>, kmsDecrypt: (string, Bytes) -> Result<Bytes, string>)
      ensures this.ssmconn == ssmconn && this.ignoreTagsConfig == ignoreTagsConfig
      ensures this.creationValidationPolls == creationValidationPolls
      ensures this.base64Decode == base64Decode && this.kmsDecrypt == kmsDecrypt
    {
      this.ssmconn := ssmconn;
      this.ignoreTagsConfig := ignoreTagsConfig;
      this.creationValidationPolls := creationValidationPolls;
      this.base64Decode := base64Decode;
      this.kmsDecrypt := kmsDecrypt;
    }
  }

  /** The plaintext of a declared ciphertext: base64-decoded, then decrypted with the declared key. */
  function DeclaredPlaintext(client: AwsClient, encryptedValue: string, encryptionKey: string): Result<Bytes, Error> {
    var blob := client.base64Decode(encryptedValue);
    if blob.None? then Failure(Base64Invalid)
    else
      var plaintext := client.kmsDecrypt(encryptionKey, blob.value);
      if plaintext.Failure? then Failure(KmsDecrypt(plaintext.error)) else Success(plaintext.value)
  }

  /** The attributes Read may overwrite, as values. */
  datatype Attributes = Attributes(
    id: string,
    name: string,
    paramType: string,
    encryptedValue: string,
    version: nat,
    description: string,
    tier: string,
    allowedPattern: string,
    dataType: string,
    tags: map<string, string>,
    arn: string)

  /** The resource's attributes. A field holds the configured value until Read overwrites it with
      the observed one. `priorDescription` and `priorTags` are the values recorded in state before
      this run (what `GetChange` reports as old); `isNew` holds during a create. */
  class ResourceData {
    var id: string
    const isNew: bool
    var name: string
    var description: string
    const priorDescription: string
    var tier: string
    var paramType: string
    var encryptedValue: string
    var encryptionKey: string
    var arn: string
    var dataType: string
    var overwrite: Option<bool>
    var allowedPattern: string
    var version: nat
    var tags: map<string, string>
    const priorTags: map<string, string>

    constructor (id: string, isNew: bool, name: string, description: string, priorDescription: string,
                 tier: string, paramType: string, encryptedValue: string, encryptionKey: string,
                 dataType: string, overwrite: Option<bool>, allowedPattern: string,
                 tags: map<string, string>, priorTags: map<string, string>)
      ensures this.id == id && this.isNew == isNew && this.name == name
      ensures this.description == description && this.priorDescription == priorDescription
      ensures this.tier == tier && this.paramType == paramType
      ensures this.encryptedValue == encryptedValue && this.encryptionKey == encryptionKey
      ensures this.arn == "" && this.dataType == dataType && this.overwrite == overwrite
      ensures this.allowedPattern == allowedPattern && this.version == 0
      ensures this.tags == tags && this.priorTags == priorTags
    {
      this.id := id;
      this.isNew := isNew;
      this.name := name;
      this.description := description;
      this.priorDescription := priorDescription;
      this.tier := tier;
      this.paramType := paramType;
      this.encryptedValue := encryptedValue;
      this.encryptionKey := encryptionKey;
      this.arn := "";
      this.dataType := dataType;
      this.overwrite := overwrite;
      this.allowedPattern := allowedPattern;
      this.version := 0;
      this.tags := tags;
      this.priorTags := priorTags;
    }

    function Attrs(): Attributes
      reads this
    {
      Attributes(id, name, paramType, encryptedValue, version, description, tier, allowedPattern, dataType, tags, arn)
    }

    /** The attributes the describe and tag listing show are those of `prior`. */
    predicate KeepsDetails(prior: Attributes)
      reads this
    {
      && description == prior.description && tier == prior.tier && allowedPattern == prior.allowedPattern
      && dataType == prior.dataType && tags == prior.tags && arn == prior.arn
    }

    /** A fetch is retried only for a new resource declared with the EC2 image data type. */
    predicate RetriesFetch()
      reads this
    {
      isNew && dataType == Ec2ImageDataType
    }
  }

  /** The fetch Read performs for `d` against the store's current state. */
  ghost function StoreFetch(client: AwsClient, d: ResourceData): Fetch
    reads client.ssmconn, d
  {
    var conn := client.ssmconn;
    ReadFetch(GetParameterApi in conn.denied, Found(conn.params, d.id), conn.PendingPolls(d.id),
              d.RetriesFetch(), d.id, client.creationValidationPolls)
  }

  /** The tags the state shows for a listing: "aws:" keys and ignored keys dropped, values as
      plain strings. */
  function ShownTags(listed: map<string, string>, config: Option<IgnoreConfig>): map<string, string> {
    TagValues(ConfiguredTags(NonAwsTags(ListedTags(listed)), config))
  }

  /** The write Put sends for `d`: the plaintext as value, the declared tier, the data type only
      when one is set, the description only when it changed, and the overwrite flag of
      shouldUpdateSsmParameter. */
  function PutRequestFor(d: ResourceData, plaintext: Bytes): (req: PutRequest)
    reads d
    ensures req.name == d.name && req.value == BytesToString(plaintext) && req.tier == Some(d.tier)
    ensures req.description.Some? <==> d.description != d.priorDescription
    ensures req.description.Some? ==> req.description.value == d.description
    ensures req.dataType.Some? <==> d.dataType != ""
    ensures req.overwrite == ShouldUpdateSsmParameter(d.overwrite, d.isNew)
  {
    PutRequest(
      d.name, d.paramType, Some(d.tier), BytesToString(plaintext),
      ShouldUpdateSsmParameter(d.overwrite, d.isNew), d.allowedPattern,
      if d.dataType != "" then Some(d.dataType) else None,
      if d.description != d.priorDescription then Some(d.description) else None,
      d.encryptionKey)
  }

  /** Presents a listing as the state's tags. */
  method PresentTags(listed: KeyValueTags, config: Option<IgnoreConfig>) returns (shown: map<string, string>)
    ensures shown == TagValues(ConfiguredTags(NonAwsTags(listed), config))
  {
    var userTags := IgnoreAws(listed);
    var kept := ApplyIgnoreConfig(userTags, config);
    shown := Map(kept);
  }

  /** The requests the second half of Read sends for the record `name`: the describe request,
      then the tag listing unless the describe failed or found nothing. */
  function DetailCalls(conn: ParameterStore, name: string): seq<Call>
    reads conn
  {
    [DescribeCall(name)] + (if DescribeParametersApi !in conn.denied && name in conn.indexed then [ListTagsCall(name)] else [])
  }

  /** What the second half of Read does to the state for the fetched record `p`, for a resource
      whose id was `id`:
      - a refused describe returns its error and shows nothing more;
      - a describe that finds nothing drops the resource from state (empty id) without error;
      - otherwise the described metadata is shown (Standard when no tier is reported), then the
        tags, minus "aws:" keys and ignored keys, and the arn; a refused listing returns its
        error after the metadata was shown. */
  predicate ShowsDetails(d: ResourceData, client: AwsClient, p: Parameter, id: string, prior: Attributes, err: Option<Error>)
    reads d, client.ssmconn
  {
    var conn := client.ssmconn;
    && (DescribeParametersApi in conn.denied ==>
          err == Some(Describing(Aws(AccessDenied))) && d.id == id && d.KeepsDetails(prior))
    && (DescribeParametersApi !in conn.denied && p.name !in conn.indexed ==>
          err == None && d.id == "" && d.KeepsDetails(prior))
    && (DescribeParametersApi !in conn.denied && p.name in conn.indexed ==>
          && d.description == p.description && d.tier == ShownTier(p.tier)
          && d.allowedPattern == p.allowedPattern && d.dataType == p.dataType
          && d.id == id
          && (conn.TagRefusal(ListTagsApi, p.name).Some? ==>
                && err == Some(ListingTags(p.name, Aws(conn.TagRefusal(ListTagsApi, p.name).value)))
                && d.tags == prior.tags && d.arn == prior.arn)
          && (conn.TagRefusal(ListTagsApi, p.name).None? ==>
                && err == None
                && d.tags == ShownTags(conn.TagsOf(p.name), client.ignoreTagsConfig)
                && d.arn == p.arn))
  }

  /** Describe, then tags, then arn (the second half of Read), for the fetched record `p`. */
  method ReadDetails(d: ResourceData, client: AwsClient, p: Parameter) returns (err: Option<Error>)
    requires p.name in client.ssmconn.params && client.ssmconn.params[p.name] == p
    modifies d`id, d`description, d`tier, d`allowedPattern, d`dataType, d`tags, d`arn
    modifies client.ssmconn`calls
    ensures client.ssmconn.calls == old(client.ssmconn.calls) + DetailCalls(client.ssmconn, p.name)
    ensures ShowsDetails(d, client, p, old(d.id), old(d.Attrs()), err)
  {
    var conn := client.ssmconn;
    var described := conn.DescribeParameters(p.name);
    if described.Failure? {
      return Some(Describing(Aws(described.error)));
    }
    if |described.value| == 0 {
      d.id := "";
      return None;
    }
    var detail := described.value[0];
    d.description := detail.description;
    d.tier := ParameterTierStandard;
    if detail.tier.Some? {
      d.tier := detail.tier.value;
    }
    d.allowedPattern := detail.allowedPattern;
    d.dataType := detail.dataType;
    err := ReadTags(d, client, p);
  }

  /** The last step of Read: list the tags of the record `p`, then show them and its arn, or
      return the listing error with both left as they were. */
  method ReadTags(d: ResourceData, client: AwsClient, p: Parameter) returns (err: Option<Error>)
    modifies d`tags, d`arn, client.ssmconn`calls
    ensures var conn := client.ssmconn;
      && conn.calls == old(conn.calls) + [ListTagsCall(p.name)]
      && (conn.TagRefusal(ListTagsApi, p.name).Some? ==>
            err == Some(ListingTags(p.name, Aws(conn.TagRefusal(ListTagsApi, p.name).value))) && unchanged(d))
      && (conn.TagRefusal(ListTagsApi, p.name).None? ==>
            err == None && d.tags == ShownTags(conn.TagsOf(p.name), client.ignoreTagsConfig) && d.arn == p.arn)
  {
    var listed := SsmListTags(client.ssmconn, p.name);
    if listed.Failure? {
      return Some(ListingTags(p.name, listed.error));
    }
    d.tags := PresentTags(listed.value, client.ignoreTagsConfig);
    d.arn := p.arn;
    return None;
  }

  /** The rest of Read once the record `p` was fetched: decrypt the declared ciphertext, show the
      record (the declared ciphertext or the sentinel, never a plaintext), then its details. */
  method ReadFetched(d: ResourceData, client: AwsClient, p: Parameter) returns (err: Option<Error>)
    requires p.name in client.ssmconn.params && client.ssmconn.params[p.name] == p
    modifies d`id, d`name, d`paramType, d`encryptedValue, d`version
    modifies d`description, d`tier, d`allowedPattern, d`dataType, d`tags, d`arn
    modifies client.ssmconn`calls
    ensures var plain := DeclaredPlaintext(client, old(d.encryptedValue), old(d.encryptionKey));
      && (plain.Failure? ==>
            err == Some(plain.error) && client.ssmconn.calls == old(client.ssmconn.calls) && unchanged(d))
      && (plain.Success? ==>
            && d.name == p.name && d.paramType == p.paramType && d.version == p.version
            && d.encryptedValue == DisplayedValue(old(d.encryptedValue), BytesToString(plain.value), p.value)
            && client.ssmconn.calls == old(client.ssmconn.calls) + DetailCalls(client.ssmconn, p.name)
            && ShowsDetails(d, client, p, old(d.id), old(d.Attrs()), err))
  {
    var blob := client.base64Decode(d.encryptedValue);
    if blob.None? {
      return Some(Base64Invalid);
    }
    var plaintext := client.kmsDecrypt(d.encryptionKey, blob.value);
    if plaintext.Failure? {
      return Some(KmsDecrypt(plaintext.error));
    }
    var encryptedValue := if BytesToString(plaintext.value) == p.value then d.encryptedValue else OutdatedSensitiveValue;
    d.name := p.name;
    d.paramType := p.paramType;
    d.encryptedValue := encryptedValue;
    d.version := p.version;
    err := ReadDetails(d, client, p);
  }

  /** resourceAwsSsmParameterRead: refreshes the state from the store.
      - The fetch is retried only for a new EC2 image parameter (see ReadFetch).
      - ParameterNotFound on an existing resource drops it from state (empty id) without error.
      - The state shows the declared ciphertext, or the sentinel when the stored plaintext
        differs from its decryption; a plaintext never reaches the state.
      - Read sends only read requests: the store's records, tags and index are untouched. */
  method Read(d: ResourceData, client: AwsClient) returns (err: Option<Error>)
    requires client.ssmconn.Valid()
    modifies d`id, d`name, d`paramType, d`encryptedValue, d`version
    modifies d`description, d`tier, d`allowedPattern, d`dataType, d`tags, d`arn
    modifies client.ssmconn`pending, client.ssmconn`calls
    ensures var conn := client.ssmconn;
      var f := old(StoreFetch(client, d));
      var plain := DeclaredPlaintext(client, old(d.encryptedValue), old(d.encryptionKey));
      && conn.pending == PendingAfter(old(conn.pending), old(d.id), old(conn.PendingPolls(d.id)), f.hidden)
      && (f.result.Failure? ==>
            && conn.calls == old(conn.calls) + Gets(old(d.id), f.gets)
            && unchanged(d`name, d`paramType, d`encryptedValue, d`version)
            && unchanged(d`description, d`tier, d`allowedPattern, d`dataType, d`tags, d`arn)
            && (IsAwsErr(f.result.error, ParameterNotFound) && !d.isNew ==> err == None && d.id == "")
            && (!(IsAwsErr(f.result.error, ParameterNotFound) && !d.isNew) ==>
                  err == Some(Reading(old(d.id), f.result.error)) && d.id == old(d.id)))
      && (f.result.Success? ==>
            old(d.id) in conn.params && f.result.value == conn.params[old(d.id)] && f.result.value.name == old(d.id))
      && (f.result.Success? && plain.Failure? ==>
            && err == Some(plain.error)
            && conn.calls == old(conn.calls) + Gets(old(d.id), f.gets)
            && unchanged(d))
      && (f.result.Success? && plain.Success? ==>
            var p := f.result.value;
            && d.name == p.name && d.paramType == p.paramType && d.version == p.version
            && d.encryptedValue == DisplayedValue(old(d.encryptedValue), BytesToString(plain.value), p.value)
            && conn.calls == old(conn.calls) + Gets(old(d.id), f.gets) + DetailCalls(conn, p.name)
            && ShowsDetails(d, client, p, old(d.id), old(d.Attrs()), err))
    ensures d.id == old(d.id) || d.id == ""
    ensures d.encryptedValue == old(d.encryptedValue) || d.encryptedValue == OutdatedSensitiveValue
    ensures err.Some? ==> !err.value.UpdatingTags? && !err.value.Creating?
    ensures |client.ssmconn.calls| >= |old(client.ssmconn.calls)|
    ensures forall i :: |old(client.ssmconn.calls)| <= i < |client.ssmconn.calls| ==> !IsTagWrite(client.ssmconn.calls[i])
  {
    var conn := client.ssmconn;
    FetchedIsStored(client, d);
    var fetched := FetchForRead(conn, d.id, d.RetriesFetch(), client.creationValidationPolls);
    if fetched.Failure? {
      if IsAwsErr(fetched.error, ParameterNotFound) && !d.isNew {
        d.id := "";
        return None;
      }
      return Some(Reading(d.id, fetched.error));
    }
    err := ReadFetched(d, client, fetched.value);
  }

  /** The request whose outcome decides the write: the request itself, or the same request
      without a tier when the store does not support the requested tier. */
  function WrittenRequest(conn: ParameterStore, req: PutRequest): PutRequest
    reads conn
  {
    if conn.PutRefusal(req) == Some(TierNotSupported) then req.(tier := None) else req
  }

  /** The write requests Put sends: one, or two when the first names an unsupported tier. */
  function WriteCalls(conn: ParameterStore, req: PutRequest): seq<Call>
    reads conn
  {
    if conn.PutRefusal(req) == Some(TierNotSupported) then [PutCall(req), PutCall(req.(tier := None))]
    else [PutCall(req)]
  }

  /** The write of Put, with its one retry without a tier. A successful write files the record
      under its name, lists the name in the describe index, starts the validation countdown of
      an "aws:ec2:image" parameter and gives a new resource an empty tag set. */
  method WriteWithTierFallback(conn: ParameterStore, req: PutRequest) returns (refusal: Option<StoreError>)
    requires conn.Valid()
    modifies conn`params, conn`tags, conn`pending, conn`indexed, conn`calls
    ensures conn.Valid()
    ensures var sent := old(WrittenRequest(conn, req));
      && refusal == old(conn.PutRefusal(sent))
      && conn.calls == old(conn.calls) + old(WriteCalls(conn, req))
      && (refusal.Some? ==> unchanged(conn`params, conn`tags, conn`pending, conn`indexed))
      && (refusal.None? ==>
            && conn.params == old(conn.params)[sent.name := Stored(Found(old(conn.params), sent.name), sent, conn.arnPrefix + sent.name)]
            && conn.tags == (if sent.name in old(conn.tags) then old(conn.tags) else old(conn.tags)[sent.name := map[]])
            && conn.indexed == old(conn.indexed) + {sent.name}
            && conn.pending == old(conn.pending)[sent.name := conn.PollsAfterWrite(sent)])
  {
    var written := conn.PutParameter(req);
    if written.Failure? && written.error == TierNotSupported {
      written := conn.PutParameter(req.(tier := None));
    }
    refusal := if written.Failure? then Some(written.error) else None;
  }

  /** The tag step of Put, for a store that denies `denied`, in which the resource exists iff
      `present` and that holds `remote` as its tags: nothing when the declared tags equal the
      prior ones, SsmUpdateTags from the prior tags to the declared ones otherwise. */
  function DeclaredTagUpdate(denied: set<Api>, present: bool, name: string, remote: map<string, string>,
                             prior: map<string, string>, declared: map<string, string>): TagUpdate
  {
    if prior == declared then TagUpdate(None, [], remote)
    else
      var oldTags := TagsFrom(InterfaceMap(prior));
      var newTags := TagsFrom(InterfaceMap(declared));
      TagUpdateOutcome(denied, present, name, remote, RemovedTags(oldTags, newTags), UpdatedTags(oldTags, newTags))
  }

  /** The tag step of Put, as DeclaredTagUpdate describes; only the tags of `name` change. */
  method ReconcileTags(conn: ParameterStore, name: string, prior: map<string, string>, declared: map<string, string>)
    returns (e: Option<Error>)
    modifies conn`tags, conn`calls
    ensures var u := old(DeclaredTagUpdate(conn.denied, name in conn.params, name, conn.TagsOf(name), prior, declared));
      e == u.err && conn.calls == old(conn.calls) + u.calls && conn.TagsOf(name) == u.tags
    ensures conn.tags - {name} == old(conn.tags) - {name}
    ensures prior == declared ==> unchanged(conn`tags)
  {
    ghost var u := DeclaredTagUpdate(conn.denied, name in conn.params, name, conn.TagsOf(name), prior, declared);
    if declared != prior {
      ghost var remote := conn.TagsOf(name);
      assert u == TagReconciliation(conn, name, TagsFrom(InterfaceMap(prior)), TagsFrom(InterfaceMap(declared)));
      e := SsmUpdateTags(conn, name, InterfaceMap(prior), InterfaceMap(declared));
    } else {
      e := None;
    }
  }

  /** What reading back the record `p` right after Put wrote it does, when `p` holds the
      plaintext of the declared ciphertext and is hidden for `hidden` more fetches; `pending` and
      `calls` are the store's countdowns and request log before the read-back:
      - the fetch (see ReadFetch) decides the outcome and the countdown it leaves;
      - a failed fetch changes nothing but the id: ParameterNotFound on an existing resource
        drops it without error, any other failure is returned as a read error;
      - a successful fetch shows the record: its name, type and version, the declared
        ciphertext (never the sentinel, since the plaintexts agree), then its details. */
  ghost predicate ReadsBackWrite(d: ResourceData, client: AwsClient, p: Parameter, hidden: nat,
                           pending: map<string, nat>, calls: seq<Call>, prior: Attributes, err: Option<Error>)
    reads d, client.ssmconn
  {
    var conn := client.ssmconn;
    var f := ReadFetch(GetParameterApi in conn.denied, Some(p), hidden, d.isNew && prior.dataType == Ec2ImageDataType,
                       p.name, client.creationValidationPolls);
    && conn.pending == pending[p.name := f.hidden]
    && (f.result.Failure? ==>
          && conn.calls == calls + Gets(p.name, f.gets)
          && (IsAwsErr(f.result.error, ParameterNotFound) && !d.isNew ==> err == None && d.Attrs() == prior.(id := ""))
          && (!(IsAwsErr(f.result.error, ParameterNotFound) && !d.isNew) ==>
                err == Some(Reading(p.name, f.result.error)) && d.Attrs() == prior.(id := p.name)))
    && (f.result.Success? ==>
          && conn.calls == calls + Gets(p.name, f.gets) + DetailCalls(conn, p.name)
          && d.name == p.name && d.paramType == p.paramType && d.version == p.version
          && d.encryptedValue == prior.encryptedValue
          && ShowsDetails(d, client, p, p.name, prior, err))
  }

  /** Read right after a successful write of the plaintext of the declared ciphertext. */
  method ReadBack(d: ResourceData, client: AwsClient) returns (err: Option<Error>)
    requires client.ssmconn.Valid()
    requires DeclaredPlaintext(client, d.encryptedValue, d.encryptionKey).Success?
    requires d.id in client.ssmconn.params && d.id in client.ssmconn.pending
    requires client.ssmconn.params[d.id].value == BytesToString(DeclaredPlaintext(client, d.encryptedValue, d.encryptionKey).value)
    modifies d`id, d`name, d`paramType, d`encryptedValue, d`version
    modifies d`description, d`tier, d`allowedPattern, d`dataType, d`tags, d`arn
    modifies client.ssmconn`pending, client.ssmconn`calls
    ensures ReadsBackWrite(d, client, old(client.ssmconn.params[d.id]), old(client.ssmconn.pending[d.id]),
                           old(client.ssmconn.pending), old(client.ssmconn.calls), old(d.Attrs()), err)
  {
    ghost var p := client.ssmconn.params[d.id];
    err := Read(d, client);
  }

  /** The part of Put after a successful write of the plaintext of the declared ciphertext:
      reconcile the tags if they changed, set the id, read back. The ghost parameters name, in
      the caller's terms, the written record `p`, the store's countdowns `pending` and request
      log `calls` before this step, the tags `remote` the store holds for the parameter, the
      attributes `prior` before Put and the outcome `u` of the tag step. */
  method ReconcileAndRead(d: ResourceData, client: AwsClient, ghost p: Parameter, ghost pending: map<string, nat>,
                          ghost calls: seq<Call>, ghost remote: map<string, string>, ghost prior: Attributes,
                          ghost u: TagUpdate)
    returns (err: Option<Error>)
    requires client.ssmconn.Valid()
    requires DeclaredPlaintext(client, d.encryptedValue, d.encryptionKey).Success?
    requires d.name in client.ssmconn.params && client.ssmconn.params[d.name] == p
    requires p.value == BytesToString(DeclaredPlaintext(client, d.encryptedValue, d.encryptionKey).value)
    requires client.ssmconn.pending == pending && d.name in pending
    requires client.ssmconn.calls == calls && client.ssmconn.TagsOf(d.name) == remote && d.Attrs() == prior
    requires u == DeclaredTagUpdate(client.ssmconn.denied, true, d.name, remote, d.priorTags, d.tags)
    modifies d`id, d`name, d`paramType, d`encryptedValue, d`version
    modifies d`description, d`tier, d`allowedPattern, d`dataType, d`tags, d`arn
    modifies client.ssmconn`tags, client.ssmconn`pending, client.ssmconn`calls
    ensures var conn := client.ssmconn;
      && conn.tags - {p.name} == old(conn.tags) - {p.name}
      && conn.TagsOf(p.name) == u.tags
      && (u.err.Some? ==>
            && err == Some(UpdatingTags(p.name, u.err.value))
            && conn.calls == calls + u.calls
            && unchanged(d) && unchanged(conn`pending))
      && (u.err.None? ==> ReadsBackWrite(d, client, p, pending[p.name], pending, calls + u.calls, prior, err))
  {
    var conn := client.ssmconn;
    var name := d.name;
    var e := ReconcileTags(conn, name, d.priorTags, d.tags);
    if e.Some? {
      return Some(UpdatingTags(name, e.value));
    }
    d.id := d.name;
    err := ReadBack(d, client);
  }

  /** What Put does once the declared ciphertext decrypted to `plaintext`:
      - the write carries the plaintext (see PutRequestFor); a write refused because the tier is
        not supported is sent once more without a tier, and any error left is fatal, before any
        tag request and with the state untouched;
      - after a successful write, tags are reconciled only when they changed (see
        DeclaredTagUpdate), only the tags of this parameter change, and a failed reconciliation
        leaves the state untouched;
      - only then is the id set to the name and the written record read back (see
        ReadsBackWrite). */
  twostate predicate WritesPlaintext(d: ResourceData, client: AwsClient, plaintext: Bytes, new err: Option<Error>)
    reads d, client.ssmconn
  {
    var conn := client.ssmconn;
    var req := old(PutRequestFor(d, plaintext));
    var sent := old(WrittenRequest(conn, req));
    var refusal := old(conn.PutRefusal(sent));
    var puts := old(WriteCalls(conn, req));
    && (refusal.Some? ==>
          && err == Some(Creating(Aws(refusal.value)))
          && conn.calls == old(conn.calls) + puts
          && unchanged(d)
          && unchanged(conn`params, conn`tags, conn`pending, conn`indexed))
    && (refusal.None? ==>
          var u := old(DeclaredTagUpdate(conn.denied, true, d.name, conn.TagsOf(d.name), d.priorTags, d.tags));
          && conn.params == old(conn.params)[sent.name := Stored(Found(old(conn.params), sent.name), sent, conn.arnPrefix + sent.name)]
          && conn.indexed == old(conn.indexed) + {sent.name}
          && conn.tags - {sent.name} == old(conn.tags) - {sent.name}
          && conn.TagsOf(sent.name) == u.tags
          && (u.err.Some? ==>
                && err == Some(UpdatingTags(sent.name, u.err.value))
                && conn.calls == old(conn.calls) + puts + u.calls
                && unchanged(d)
                && conn.pending == old(conn.pending)[sent.name := conn.PollsAfterWrite(sent)])
          && (u.err.None? ==>
                var written := Stored(Found(old(conn.params), sent.name), sent, conn.arnPrefix + sent.name);
                var pending := old(conn.pending)[sent.name := conn.PollsAfterWrite(sent)];
                ReadsBackWrite(d, client, written, pending[written.name], pending, old(conn.calls) + puts + u.calls,
                               old(d.Attrs()), err)))
  }

  /** Put once the declared ciphertext decrypted to `plaintext`. */
  method WriteDecrypted(d: ResourceData, client: AwsClient, plaintext: Bytes) returns (err: Option<Error>)
    requires client.ssmconn.Valid()
    requires DeclaredPlaintext(client, d.encryptedValue, d.encryptionKey) == Success(plaintext)
    modifies d`id, d`name, d`paramType, d`encryptedValue, d`version
    modifies d`description, d`tier, d`allowedPattern, d`dataType, d`tags, d`arn
    modifies client.ssmconn`params, client.ssmconn`tags, client.ssmconn`pending, client.ssmconn`indexed,
             client.ssmconn`calls
    ensures client.ssmconn.Valid()
    ensures WritesPlaintext(d, client, plaintext, err)
  {
    var conn := client.ssmconn;
    var paramInput := PutRequestFor(d, plaintext);
    ghost var sent := WrittenRequest(conn, paramInput);
    ghost var remote := conn.TagsOf(d.name);
    ghost var u := DeclaredTagUpdate(conn.denied, true, d.name, remote, d.priorTags, d.tags);
    ghost var written := Stored(Found(conn.params, sent.name), sent, conn.arnPrefix + sent.name);
    ghost var pending := conn.pending[sent.name := conn.PollsAfterWrite(sent)];
    ghost var calls := conn.calls + WriteCalls(conn, paramInput);
    var refusal := WriteWithTierFallback(conn, paramInput);
    if refusal.Some? {
      return Some(Creating(Aws(refusal.value)));
    }
    assert conn.tags - {sent.name} == old(conn.tags) - {sent.name};
    err := ReconcileAndRead(d, client, written, pending, calls, remote, old(d.Attrs()), u);
  }

  /** resourceAwsSsmParameterPut, for both create and update: a declared ciphertext that does
      not decode or decrypt stops Put before any request; otherwise Put writes the plaintext,
      reconciles the tags and reads the record back, as WritesPlaintext describes. What this
      means for the caller is stated by the lemmas about WritesPlaintext below. */
  method Put(d: ResourceData, client: AwsClient) returns (err: Option<Error>)
    requires client.ssmconn.Valid()
    modifies d`id, d`name, d`paramType, d`encryptedValue, d`version
    modifies d`description, d`tier, d`allowedPattern, d`dataType, d`tags, d`arn
    modifies client.ssmconn`params, client.ssmconn`tags, client.ssmconn`pending, client.ssmconn`indexed,
             client.ssmconn`calls
    ensures client.ssmconn.Valid()
    ensures var plain := old(DeclaredPlaintext(client, d.encryptedValue, d.encryptionKey));
      && (plain.Failure? ==> err == Some(plain.error) && unchanged(d) && unchanged(client.ssmconn))
      && (plain.Success? ==> WritesPlaintext(d, client, plain.value, err))
  {
    var blob := client.base64Decode(d.encryptedValue);
    if blob.None? {
      return Some(Base64Invalid);
    }
    var plaintext := client.kmsDecrypt(d.encryptionKey, blob.value);
    if plaintext.Failure? {
      return Some(KmsDecrypt(plaintext.error));
    }
    err := WriteDecrypted(d, client, plaintext.value);
  }

  /** resourceAwsSsmParameterDelete: deletes the parameter named by the declared name and reports
      every error, ParameterNotFound included. The state is not changed. */
  method Delete(d: ResourceData, client: AwsClient) returns (err: Option<Error>)
    requires client.ssmconn.Valid()
    modifies client.ssmconn`params, client.ssmconn`tags, client.ssmconn`pending, client.ssmconn`indexed,
             client.ssmconn`calls
    ensures client.ssmconn.Valid()
    ensures var conn := client.ssmconn;
      && conn.calls == old(conn.calls) + [DeleteCall(d.name)]
      && (DeleteParameterApi in conn.denied ==>
            && err == Some(Deleting(d.id, Aws(AccessDenied)))
            && unchanged(conn`params, conn`tags, conn`pending, conn`indexed))
      && (DeleteParameterApi !in conn.denied && d.name !in old(conn.params) ==>
            && err == Some(Deleting(d.id, Aws(ParameterNotFound)))
            && unchanged(conn`params, conn`tags, conn`pending, conn`indexed))
      && (DeleteParameterApi !in conn.denied && d.name in old(conn.params) ==>
            && err == None
            && conn.params == old(conn.params) - {d.name} && conn.tags == old(conn.tags) - {d.name}
            && conn.pending == old(conn.pending) - {d.name} && conn.indexed == old(conn.indexed) - {d.name})
  {
    var e := client.ssmconn.DeleteParameter(d.name);
    if e.Some? {
      return Some(Deleting(d.id, Aws(e.value)));
    }
    return None;
  }

  /** A tag step that succeeds from the user tags recorded as prior leaves the declared user
      tags, whether or not the tags changed. */
  lemma TagStepConverges(denied: set<Api>, present: bool, name: string, remote: map<string, string>,
                         prior: map<string, string>, declared: map<string, string>)
    requires UserTags(remote) == UserTags(prior)
    ensures var u := DeclaredTagUpdate(denied, present, name, remote, prior, declared);
      u.err.None? ==> UserTags(u.tags) == UserTags(declared)
  {
    if prior != declared {
      var oldTags := TagsFrom(InterfaceMap(prior));
      var newTags := TagsFrom(InterfaceMap(declared));
      var removed := RemovedTags(oldTags, newTags);
      var updated := UpdatedTags(oldTags, newTags);
      var u := TagUpdateOutcome(denied, present, name, remote, removed, updated);
      assert DeclaredTagUpdate(denied, present, name, remote, prior, declared) == u;
      if u.err.None? {
        assert u.tags == (remote - NonAwsTags(removed).Keys) + TagValues(NonAwsTags(updated));
        DeclaredReconciliationConverges(remote, prior, declared);
      }
    }
  }

  /** Without an ignore configuration the state shows exactly the user tags of the listing. */
  lemma ShownTagsWithoutConfig(listed: map<string, string>)
    ensures ShownTags(listed, None) == UserTags(listed)
  {
    ListedTagsKeepValues(listed);
    assert NonAwsTags(ListedTags(listed)).Keys == UserTags(listed).Keys;
  }

  /** Put on a new resource declared without an explicit overwrite never replaces a parameter
      that already exists: the write is refused and the records stay as they were. */
  twostate lemma PutNeverClobbers(d: ResourceData, client: AwsClient, plaintext: Bytes, new err: Option<Error>)
    requires WritesPlaintext(d, client, plaintext, err)
    requires d.isNew && old(d.overwrite).None? && old(d.name) in old(client.ssmconn.params)
    ensures err.Some? && err.value.Creating?
    ensures client.ssmconn.params == old(client.ssmconn.params)
  {
    var req := old(PutRequestFor(d, plaintext));
    assert !req.overwrite;
    assert old(client.ssmconn.PutRefusal(req)).Some?;
    assert old(client.ssmconn.PutRefusal(req.(tier := None))).Some?;
  }

  /** After Put the resource keeps its id, is identified by its declared name, or is dropped from
      state (empty id); when Put succeeds and keeps it, the state shows the declared name and the
      declared ciphertext. */
  twostate lemma PutShowsDeclaredCiphertext(d: ResourceData, client: AwsClient, plaintext: Bytes,
                                            new err: Option<Error>)
    requires WritesPlaintext(d, client, plaintext, err)
    ensures d.id == old(d.id) || d.id == old(d.name) || d.id == ""
    ensures err.None? && d.id != "" ==> d.id == old(d.name) && d.encryptedValue == old(d.encryptedValue)
  {
    var sent := old(WrittenRequest(client.ssmconn, PutRequestFor(d, plaintext)));
    assert sent.name == old(d.name);
  }

  /** Put reports a tag error only when the declared tags differ from the prior ones, and then
      the state is left as it was. */
  twostate lemma PutTagFailureKeepsState(d: ResourceData, client: AwsClient, plaintext: Bytes,
                                         new err: Option<Error>)
    requires WritesPlaintext(d, client, plaintext, err)
    requires err.Some? && err.value.UpdatingTags?
    ensures unchanged(d) && old(d.tags) != d.priorTags
  {
  }

  /** The read-back sends no tag request: it appends its reads to `calls`. */
  lemma ReadBackWritesNoTags(d: ResourceData, client: AwsClient, p: Parameter, hidden: nat, pending: map<string, nat>,
                             calls: seq<Call>, prior: Attributes, err: Option<Error>)
    requires ReadsBackWrite(d, client, p, hidden, pending, calls, prior, err)
    ensures |calls| <= |client.ssmconn.calls| && client.ssmconn.calls[..|calls|] == calls
    ensures forall i :: |calls| <= i < |client.ssmconn.calls| ==> !IsTagWrite(client.ssmconn.calls[i])
  {
  }

  /** Put with the declared tags equal to the prior ones sends no tag request. */
  twostate lemma PutWithoutTagChangeWritesNoTags(d: ResourceData, client: AwsClient, plaintext: Bytes,
                                                 new err: Option<Error>)
    requires WritesPlaintext(d, client, plaintext, err)
    requires old(d.tags) == d.priorTags
    ensures forall i :: |old(client.ssmconn.calls)| <= i < |client.ssmconn.calls| ==> !IsTagWrite(client.ssmconn.calls[i])
  {
    var conn := client.ssmconn;
    var req := old(PutRequestFor(d, plaintext));
    var sent := old(WrittenRequest(conn, req));
    var puts := old(WriteCalls(conn, req));
    assert forall i :: 0 <= i < |puts| ==> puts[i].PutCall?;
    if old(conn.PutRefusal(sent)).None? {
      var u := old(DeclaredTagUpdate(conn.denied, true, d.name, conn.TagsOf(d.name), d.priorTags, d.tags));
      assert u.calls == [] && u.err.None?;
      var written := Stored(Found(old(conn.params), sent.name), sent, conn.arnPrefix + sent.name);
      var pending := old(conn.pending)[sent.name := conn.PollsAfterWrite(sent)];
      var calls := old(conn.calls) + puts + u.calls;
      ReadBackWritesNoTags(d, client, written, pending[written.name], pending, calls, old(d.Attrs()), err);
      assert forall i :: |old(conn.calls)| <= i < |calls| ==> calls[i] == puts[i - |old(conn.calls)|];
    }
  }

  /** A read-back that succeeds and keeps the resource identifies it by the record's name and
      shows the prior ciphertext and the record's tags as presented. */
  lemma ReadBackShowsRecord(d: ResourceData, client: AwsClient, p: Parameter, hidden: nat, pending: map<string, nat>,
                            calls: seq<Call>, prior: Attributes, err: Option<Error>)
    requires ReadsBackWrite(d, client, p, hidden, pending, calls, prior, err)
    requires err.None? && d.id != ""
    ensures d.id == p.name && d.encryptedValue == prior.encryptedValue
    ensures d.tags == ShownTags(client.ssmconn.TagsOf(p.name), client.ignoreTagsConfig)
  {
  }

  /** With no ignore configuration, a Put that succeeds and keeps the resource, against a store
      whose user tags are the prior ones, shows exactly the declared user tags. */
  twostate lemma PutConvergesTags(d: ResourceData, client: AwsClient, plaintext: Bytes, new err: Option<Error>)
    requires WritesPlaintext(d, client, plaintext, err)
    requires client.ignoreTagsConfig.None?
    requires UserTags(old(client.ssmconn.TagsOf(d.name))) == UserTags(d.priorTags)
    requires err.None? && d.id != ""
    ensures d.tags == UserTags(old(d.tags))
  {
    var conn := client.ssmconn;
    var req := old(PutRequestFor(d, plaintext));
    var sent := old(WrittenRequest(conn, req));
    var puts := old(WriteCalls(conn, req));
    assert sent.name == old(d.name);
    var u := old(DeclaredTagUpdate(conn.denied, true, d.name, conn.TagsOf(d.name), d.priorTags, d.tags));
    var written := Stored(Found(old(conn.params), sent.name), sent, conn.arnPrefix + sent.name);
    var pending := old(conn.pending)[sent.name := conn.PollsAfterWrite(sent)];
    ReadBackShowsRecord(d, client, written, pending[written.name], pending, old(conn.calls) + puts + u.calls,
                        old(d.Attrs()), err);
    TagStepConverges(old(conn.denied), true, old(d.name), old(conn.TagsOf(d.name)), d.priorTags, old(d.tags));
    ShownTagsWithoutConfig(conn.TagsOf(sent.name));
  }

  /** The fetched record is the one filed under the resource's id. */
  lemma FetchedIsStored(client: AwsClient, d: ResourceData)
    requires client.ssmconn.Valid()
    ensures var f := StoreFetch(client, d);
      f.result.Success? ==>
        d.id in client.ssmconn.params && f.result.value == client.ssmconn.params[d.id] && f.result.value.name == d.id
  {
    var conn := client.ssmconn;
    RetryLaws.FetchSucceedsOnlyWithStored(GetParameterApi in conn.denied, Found(conn.params, d.id),
      conn.PendingPolls(d.id), d.RetriesFetch(), d.id, client.creationValidationPolls);
  }
}
