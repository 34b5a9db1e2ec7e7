/** An abstract Parameter Store: the remote collaborator the reconciliation engine drives.

    The store is a class whose fields are its remote state. Every operation is deterministic in
    that state, and every error the engine has to handle comes from it:
    - `denied` lists the operations the caller's credentials may not use (each refused call
      fails with AccessDeniedException);
    - a parameter that does not exist gives ParameterNotFound (or InvalidResourceId for tags);
    - a tier outside `supportedTiers` gives the tier-not-supported validation error;
    - a create without overwrite over an existing name gives ParameterAlreadyExists;
    - an overwrite asking for the standard tier on an advanced parameter is refused, since a
      parameter cannot be downgraded in place;
    - `pending` counts, per name, how many more fetches will still miss a freshly written
      "aws:ec2:image" parameter while its asynchronous validation runs;
    - `indexed` is the set of names the describe index currently returns (it may lag behind
      `params`).
    The ghost field `calls` records every request received, so that callers can state which
    requests they issue and in what order. */
module SsmStore {
  import opened Wrappers

  const ParameterTierStandard := "Standard"
  const ParameterTierAdvanced := "Advanced"
  const Ec2ImageDataType := "aws:ec2:image"
  const TextDataType := "text"

  /** Errors the store returns, by error code. */
  datatype StoreError =
    | ParameterNotFound
    | TierNotSupported    // ValidationException whose message contains "Tier is not supported"
    | TierDowngrade       // ValidationException: an advanced parameter cannot become standard
    | Other(code: string)

  const AccessDenied := Other("AccessDeniedException")
  const ParameterAlreadyExists := Other("ParameterAlreadyExists")
  const InvalidResourceId := Other("InvalidResourceId")

  datatype Api =
    | GetParameterApi | PutParameterApi | DescribeParametersApi | DeleteParameterApi
    | ListTagsApi | AddTagsApi | RemoveTagsApi

  /** One stored parameter. A tier of None stands for a record the store reports no tier for. */
  datatype Parameter = Parameter(
    name: string,
    paramType: string,
    value: string,
    version: nat,
    tier: Option<string>,
    keyId: string,
    description: string,
    allowedPattern: string,
    dataType: string,
    arn: string)

  /** A PutParameter request. Optional fields left None are not sent. */
  datatype PutRequest = PutRequest(
    name: string,
    paramType: string,
    tier: Option<string>,
    value: string,
    overwrite: bool,
    allowedPattern: string,
    dataType: Option<string>,
    description: Option<string>,
    keyId: string)

  /** The metadata DescribeParameters reports for one parameter. */
  datatype Detail = Detail(
    keyId: string,
    description: string,
    tier: Option<string>,
    allowedPattern: string,
    dataType: string)

  /** A request the store received. */
  datatype Call =
    | GetCall(name: string)
    | PutCall(request: PutRequest)
    | DescribeCall(name: string)
    | DeleteCall(name: string)
    | ListTagsCall(resourceId: string)
    | AddTagsCall(resourceId: string, tags: map<string, string>)
    | RemoveTagsCall(resourceId: string, keys: set<string>)

  /** A request that changes the tags of a resource. */
  predicate IsTagWrite(c: Call) {
    c.AddTagsCall? || c.RemoveTagsCall?
  }

  /** The record a successful write leaves: fields not sent keep their previous value (or the
      store's default for a new record); the version goes up by one. */
  function Stored(previous: Option<Parameter>, req: PutRequest, arn: string): Parameter {
    Parameter(
      req.name,
      req.paramType,
      req.value,
      if previous.Some? then previous.value.version + 1 else 1,
      if req.tier.Some? then req.tier
      else if previous.Some? then previous.value.tier
      else Some(ParameterTierStandard),
      req.keyId,
      if req.description.Some? then req.description.value
      else if previous.Some? then previous.value.description
      else "",
      req.allowedPattern,
      if req.dataType.Some? then req.dataType.value
      else if previous.Some? then previous.value.dataType
      else TextDataType,
      arn)
  }

  /** A write asking for the standard tier on a record held in the advanced tier. */
  predicate IsDowngrade(stored: Option<string>, requested: Option<string>) {
    stored == Some(ParameterTierAdvanced) && requested == Some(ParameterTierStandard)
  }

  /** Why a tag operation would be refused, if it would: access first, then a resource that does
      not exist. */
  function TagRefusalFor(denied: set<Api>, api: Api, present: bool): Option<StoreError> {
    if api in denied then Some(AccessDenied)
    else if !present then Some(InvalidResourceId)
    else None
  }

  function DetailOf(p: Parameter): Detail {
    Detail(p.keyId, p.description, p.tier, p.allowedPattern, p.dataType)
  }

  class ParameterStore {
    var params: map<string, Parameter>
    var tags: map<string, map<string, string>>
    var pending: map<string, nat>
    var indexed: set<string>
    var denied: set<Api>
    const supportedTiers: set<string>
    const validationPolls: nat
    const arnPrefix: string
    ghost var calls: seq<Call>

    /** Every record is filed under its own name. */
    ghost predicate Valid()
      reads this
    {
      forall n :: n in params ==> params[n].name == n
    }

    constructor (params: map<string, Parameter>, tags: map<string, map<string, string>>,
                 indexed: set<string>, denied: set<Api>, supportedTiers: set<string>,
                 validationPolls: nat, arnPrefix: string)
      requires forall n :: n in params ==> params[n].name == n
      ensures Valid()
      ensures this.params == params && this.tags == tags && this.pending == map[]
      ensures this.indexed == indexed && this.denied == denied
      ensures this.supportedTiers == supportedTiers && this.validationPolls == validationPolls
      ensures this.arnPrefix == arnPrefix && this.calls == []
    {
      this.params := params;
      this.tags := tags;
      this.pending := map[];
      this.indexed := indexed;
      this.denied := denied;
      this.supportedTiers := supportedTiers;
      this.validationPolls := validationPolls;
      this.arnPrefix := arnPrefix;
      this.calls := [];
    }

    /** How many more fetches of `name` will still miss it. */
    function PendingPolls(name: string): nat
      reads this
    {
      if name in pending then pending[name] else 0
    }

    /** The tags held for a resource. */
    function TagsOf(resourceId: string): map<string, string>
      reads this
    {
      if resourceId in tags then tags[resourceId] else map[]
    }

    /** Why a tag operation on `resourceId` would be refused, if it would. */
    function TagRefusal(api: Api, resourceId: string): Option<StoreError>
      reads this
    {
      TagRefusalFor(denied, api, resourceId in params)
    }

    /** How many fetches will miss a record right after `req` wrote it: an "aws:ec2:image"
        parameter is hidden while its validation runs, any other is visible at once. */
    function PollsAfterWrite(req: PutRequest): nat {
      if req.dataType == Some(Ec2ImageDataType) then validationPolls else 0
    }

    /** Why a write would be refused, if it would: access, then tier, then an existing name
        without overwrite, then an overwrite that would move an advanced parameter down to the
        standard tier. */
    function PutRefusal(req: PutRequest): Option<StoreError>
      reads this
    {
      if PutParameterApi in denied then Some(AccessDenied)
      else if req.tier.Some? && req.tier.value !in supportedTiers then Some(TierNotSupported)
      else if req.name in params && !req.overwrite then Some(ParameterAlreadyExists)
      else if req.name in params && IsDowngrade(params[req.name].tier, req.tier) then Some(TierDowngrade)
      else None
    }

    method GetParameter(name: string) returns (r: Result<Parameter, StoreError>)
      modifies this`pending, this`calls
      ensures calls == old(calls) + [GetCall(name)]
      ensures GetParameterApi in denied ==> r == Failure(AccessDenied) && pending == old(pending)
      ensures GetParameterApi !in denied && name !in params ==>
        r == Failure(ParameterNotFound) && pending == old(pending)
      ensures GetParameterApi !in denied && name in params && old(PendingPolls(name)) > 0 ==>
        r == Failure(ParameterNotFound) && pending == old(pending)[name := old(PendingPolls(name)) - 1]
      ensures GetParameterApi !in denied && name in params && old(PendingPolls(name)) == 0 ==>
        r == Success(params[name]) && pending == old(pending)
    {
      calls := calls + [GetCall(name)];
      if GetParameterApi in denied {
        return Failure(AccessDenied);
      }
      if name !in params {
        return Failure(ParameterNotFound);
      }
      if PendingPolls(name) > 0 {
        pending := pending[name := PendingPolls(name) - 1];
        return Failure(ParameterNotFound);
      }
      return Success(params[name]);
    }

    method PutParameter(req: PutRequest) returns (r: Result<nat, StoreError>)
      requires Valid()
      modifies this`params, this`tags, this`pending, this`indexed, this`calls
      ensures Valid()
      ensures calls == old(calls) + [PutCall(req)]
      ensures old(PutRefusal(req)).Some? ==>
        r == Failure(old(PutRefusal(req)).value) && unchanged(this`params, this`tags, this`pending, this`indexed)
      ensures old(PutRefusal(req)).None? ==>
        var stored := Stored(if req.name in old(params) then Some(old(params)[req.name]) else None,
                             req, arnPrefix + req.name);
        && r == Success(stored.version)
        && params == old(params)[req.name := stored]
        && tags == (if req.name in old(tags) then old(tags) else old(tags)[req.name := map[]])
        && indexed == old(indexed) + {req.name}
        && pending == old(pending)[req.name := PollsAfterWrite(req)]
    {
      calls := calls + [PutCall(req)];
      var refusal := PutRefusal(req);
      if refusal.Some? {
        return Failure(refusal.value);
      }
      var previous := if req.name in params then Some(params[req.name]) else None;
      var stored := Stored(previous, req, arnPrefix + req.name);
      params := params[req.name := stored];
      if req.name !in tags {
        tags := tags[req.name := map[]];
      }
      indexed := indexed + {req.name};
      pending := pending[req.name := PollsAfterWrite(req)];
      return Success(stored.version);
    }

    /** DescribeParameters filtered on an exact name: zero or one detail. */
    method DescribeParameters(name: string) returns (r: Result<seq<Detail>, StoreError>)
      modifies this`calls
      ensures calls == old(calls) + [DescribeCall(name)]
      ensures DescribeParametersApi in denied ==> r == Failure(AccessDenied)
      ensures DescribeParametersApi !in denied ==>
        r == Success(if name in params && name in indexed then [DetailOf(params[name])] else [])
    {
      calls := calls + [DescribeCall(name)];
      if DescribeParametersApi in denied {
        return Failure(AccessDenied);
      }
      if name in params && name in indexed {
        return Success([DetailOf(params[name])]);
      }
      return Success([]);
    }

    method DeleteParameter(name: string) returns (r: Option<StoreError>)
      requires Valid()
      modifies this`params, this`tags, this`pending, this`indexed, this`calls
      ensures Valid()
      ensures calls == old(calls) + [DeleteCall(name)]
      ensures DeleteParameterApi in denied ==>
        r == Some(AccessDenied) && unchanged(this`params, this`tags, this`pending, this`indexed)
      ensures DeleteParameterApi !in denied && name !in old(params) ==>
        r == Some(ParameterNotFound) && unchanged(this`params, this`tags, this`pending, this`indexed)
      ensures DeleteParameterApi !in denied && name in old(params) ==>
        && r == None
        && params == old(params) - {name} && tags == old(tags) - {name}
        && pending == old(pending) - {name} && indexed == old(indexed) - {name}
    {
      calls := calls + [DeleteCall(name)];
      if DeleteParameterApi in denied {
        return Some(AccessDenied);
      }
      if name !in params {
        return Some(ParameterNotFound);
      }
      params := params - {name};
      tags := tags - {name};
      pending := pending - {name};
      indexed := indexed - {name};
      return None;
    }

    method ListTagsForResource(resourceId: string) returns (r: Result<map<string, string>, StoreError>)
      modifies this`calls
      ensures calls == old(calls) + [ListTagsCall(resourceId)]
      ensures TagRefusal(ListTagsApi, resourceId).Some? ==>
        r == Failure(TagRefusal(ListTagsApi, resourceId).value)
      ensures TagRefusal(ListTagsApi, resourceId).None? ==> r == Success(TagsOf(resourceId))
    {
      calls := calls + [ListTagsCall(resourceId)];
      var refusal := TagRefusal(ListTagsApi, resourceId);
      if refusal.Some? {
        return Failure(refusal.value);
      }
      return Success(TagsOf(resourceId));
    }

    /** Adds or overwrites the given tags. */
    method AddTagsToResource(resourceId: string, newTags: map<string, string>) returns (r: Option<StoreError>)
      modifies this`tags, this`calls
      ensures calls == old(calls) + [AddTagsCall(resourceId, newTags)]
      ensures r == old(TagRefusal(AddTagsApi, resourceId))
      ensures r.Some? ==> tags == old(tags)
      ensures r.None? ==> tags == old(tags)[resourceId := old(TagsOf(resourceId)) + newTags]
    {
      calls := calls + [AddTagsCall(resourceId, newTags)];
      r := TagRefusal(AddTagsApi, resourceId);
      if r.None? {
        tags := tags[resourceId := TagsOf(resourceId) + newTags];
      }
    }

    /** Removes the given tag keys; the order of `keys` does not matter. */
    method RemoveTagsFromResource(resourceId: string, keys: seq<string>) returns (r: Option<StoreError>)
      modifies this`tags, this`calls
      ensures calls == old(calls) + [RemoveTagsCall(resourceId, set k | k in keys)]
      ensures r == old(TagRefusal(RemoveTagsApi, resourceId))
      ensures r.Some? ==> tags == old(tags)
      ensures r.None? ==> tags == old(tags)[resourceId := old(TagsOf(resourceId)) - (set k | k in keys)]
    {
      calls := calls + [RemoveTagsCall(resourceId, set k | k in keys)];
      r := TagRefusal(RemoveTagsApi, resourceId);
      if r.None? {
        tags := tags[resourceId := TagsOf(resourceId) - (set k | k in keys)];
      }
    }
  }
}
