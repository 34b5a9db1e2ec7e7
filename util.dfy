/** The remaining helpers of encryptedssm/util.go: the overwrite default, the timeout test, and
    the two tag operations that talk to the store (listing tags, and reconciling them with one
    remove call and one add call). */
module Util {
  import opened Wrappers
  import opened Tags
  import opened TagLaws
  import opened SsmStore
  import opened Errors

  /** An explicit `overwrite` wins; without one, only a resource that already exists is
      overwritten, so a first creation never replaces someone else's parameter. */
  function ShouldUpdateSsmParameter(overwrite: Option<bool>, isNewResource: bool): (r: bool)
    ensures overwrite.Some? ==> r == overwrite.value
    ensures overwrite.None? ==> (r <==> !isNewResource)
  {
    if overwrite.Some? then overwrite.value else !isNewResource
  }

  /** The retry window expired without any attempt having recorded an error. */
  predicate IsResourceTimeoutError(err: Error) {
    err.Timeout? && err.lastError.None?
  }

  /** The tag set built from the tags the store lists (through the pointer-map shape of New). */
  function ListedTags(listed: map<string, string>): KeyValueTags {
    TagsFrom(StringPointerMap(map k | k in listed :: Some(listed[k])))
  }

  /** The user-managed part of a plain tag map: every key without the "aws:" prefix. */
  function UserTags(m: map<string, string>): map<string, string> {
    map k | k in m && !HasPrefix(k, AwsTagKeyPrefix) :: m[k]
  }

  /** The tag map the store holds for `resourceId` after a successful reconciliation from
      `oldTags` to `newTags`: removed keys dropped, updated keys written, "aws:" keys excluded
      from both requests. */
  function ReconciledTags(remote: map<string, string>, oldTags: KeyValueTags, newTags: KeyValueTags): map<string, string> {
    (remote - NonAwsTags(RemovedTags(oldTags, newTags)).Keys) + TagValues(NonAwsTags(UpdatedTags(oldTags, newTags)))
  }

  /** Listed tags carry every listed key with its value. */
  lemma ListedTagsKeepValues(listed: map<string, string>)
    ensures TagValues(ListedTags(listed)) == listed
    ensures forall k :: k in ListedTags(listed) ==> ListedTags(listed)[k].Some?
  {
  }

  /** Reconciliation converges: if the store's user-managed tags were those of `oldTags`, after
      the two requests they are those of `newTags`, and the platform's "aws:" tags are untouched. */
  lemma {:induction false} ReconciliationConverges(remote: map<string, string>, oldTags: KeyValueTags, newTags: KeyValueTags)
    requires UserTags(remote) == TagValues(NonAwsTags(oldTags))
    ensures UserTags(ReconciledTags(remote, oldTags, newTags)) == TagValues(NonAwsTags(newTags))
    ensures forall k :: HasPrefix(k, AwsTagKeyPrefix) ==>
      (k in ReconciledTags(remote, oldTags, newTags) <==> k in remote)
    ensures forall k :: HasPrefix(k, AwsTagKeyPrefix) && k in remote ==>
      ReconciledTags(remote, oldTags, newTags)[k] == remote[k]
  {
    var after := ReconciledTags(remote, oldTags, newTags);
    var removed := RemovedTags(oldTags, newTags);
    var updated := UpdatedTags(oldTags, newTags);
    var want := TagValues(NonAwsTags(newTags));
    forall k | !HasPrefix(k, AwsTagKeyPrefix)
      ensures k in UserTags(after) <==> k in want
      ensures k in want ==> UserTags(after)[k] == want[k]
    {
      assert k in UserTags(remote) <==> k in oldTags;
      if k in newTags && k !in updated {
        assert k in oldTags && Equal(oldTags[k], newTags[k]);
        assert k in UserTags(remote) && UserTags(remote)[k] == ValueOf(oldTags[k]);
      }
      if k in oldTags && k !in newTags {
        assert k in removed;
      }
    }
    assert UserTags(after).Keys == want.Keys;
  }

  /** Reconciling between two declared string maps (the shape the engine passes) makes the
      store's user-managed tags equal to the declared ones without "aws:" keys. */
  lemma DeclaredReconciliationConverges(remote: map<string, string>, prior: map<string, string>, declared: map<string, string>)
    requires UserTags(remote) == UserTags(prior)
    ensures UserTags(ReconciledTags(remote, TagsFrom(InterfaceMap(prior)), TagsFrom(InterfaceMap(declared))))
         == UserTags(declared)
  {
    StringMapRoundTrip(prior);
    StringMapRoundTrip(declared);
    assert TagValues(NonAwsTags(TagsFrom(InterfaceMap(prior)))) == UserTags(prior);
    assert TagValues(NonAwsTags(TagsFrom(InterfaceMap(declared)))) == UserTags(declared);
    ReconciliationConverges(remote, TagsFrom(InterfaceMap(prior)), TagsFrom(InterfaceMap(declared)));
  }

  /** Tags of the resource, as a tag set; a refused listing returns the store's error. */
  method SsmListTags(conn: ParameterStore, identifier: string) returns (r: Result<KeyValueTags, Error>)
    modifies conn`calls
    ensures conn.calls == old(conn.calls) + [ListTagsCall(identifier)]
    ensures conn.TagRefusal(ListTagsApi, identifier).Some? ==>
      r == Failure(Aws(conn.TagRefusal(ListTagsApi, identifier).value))
    ensures conn.TagRefusal(ListTagsApi, identifier).None? ==>
      r == Success(ListedTags(conn.TagsOf(identifier)))
  {
    var output := conn.ListTagsForResource(identifier);
    if output.Failure? {
      return Failure(Aws(output.error));
    }
    var tags := SsmKeyValueTags(output.value);
    return Success(tags);
  }

  /** The tag set for a listing from the store. */
  method SsmKeyValueTags(tagList: map<string, string>) returns (tags: KeyValueTags)
    ensures tags == ListedTags(tagList)
  {
    var m := map k | k in tagList :: Some(tagList[k]);
    tags := New(StringPointerMap(m));
  }

  /** Writing a key and then dropping it leaves the rest of the map as it was. */
  lemma OverwriteThenDrop<K, V>(m: map<K, V>, k: K, v: V)
    ensures m[k := v] - {k} == m - {k}
  {
  }

  /** The two diffs SsmUpdateTags sends, computed from the two tag inputs. */
  method TagDiffs(oldTagsMap: TagInput, newTagsMap: TagInput) returns (removedTags: KeyValueTags, updatedTags: KeyValueTags)
    ensures removedTags == RemovedTags(TagsFrom(oldTagsMap), TagsFrom(newTagsMap))
    ensures updatedTags == UpdatedTags(TagsFrom(oldTagsMap), TagsFrom(newTagsMap))
  {
    var oldTags := New(oldTagsMap);
    var newTags := New(newTagsMap);
    removedTags := Removed(oldTags, newTags);
    updatedTags := Updated(oldTags, newTags);
  }

  /** The remove request SsmUpdateTags sends for the removed tags: none when nothing was removed. */
  function UntagCalls(identifier: string, removedTags: KeyValueTags): seq<Call> {
    if |removedTags| > 0 then [RemoveTagsCall(identifier, NonAwsTags(removedTags).Keys)] else []
  }

  /** The add request SsmUpdateTags sends for the updated tags: none when nothing was added or
      changed. */
  function TagCalls(identifier: string, updatedTags: KeyValueTags): seq<Call> {
    if |updatedTags| > 0 then [AddTagsCall(identifier, TagValues(NonAwsTags(updatedTags)))] else []
  }

  /** The remove step of SsmUpdateTags: when some key was removed, one request naming the
      removed keys without the "aws:" prefix, in whatever order `Keys` lists them; no request
      otherwise. Only the tags of `identifier` change. */
  method UntagResource(conn: ParameterStore, identifier: string, removedTags: KeyValueTags)
    returns (e: Option<StoreError>)
    modifies conn`tags, conn`calls
    ensures conn.calls == old(conn.calls) + UntagCalls(identifier, removedTags)
    ensures e == (if |removedTags| > 0 then old(conn.TagRefusal(RemoveTagsApi, identifier)) else None)
    ensures e.Some? ==> conn.tags == old(conn.tags)
    ensures e.None? ==> conn.TagsOf(identifier) == old(conn.TagsOf(identifier)) - NonAwsTags(removedTags).Keys
    ensures conn.tags - {identifier} == old(conn.tags) - {identifier}
  {
    if |removedTags| > 0 {
      var userTags := IgnoreAws(removedTags);
      var keys := Keys(userTags);
      assert (set k | k in keys) == NonAwsTags(removedTags).Keys;
      e := conn.RemoveTagsFromResource(identifier, keys);
      if e.None? {
        OverwriteThenDrop(old(conn.tags), identifier, old(conn.TagsOf(identifier)) - NonAwsTags(removedTags).Keys);
      }
    } else {
      e := None;
      assert NonAwsTags(removedTags).Keys == {};
    }
  }

  /** The add step of SsmUpdateTags: when some key was added or changed, one request carrying
      those tags without the "aws:" prefix; no request otherwise. Only the tags of `identifier`
      change. */
  method TagResource(conn: ParameterStore, identifier: string, updatedTags: KeyValueTags)
    returns (e: Option<StoreError>)
    modifies conn`tags, conn`calls
    ensures conn.calls == old(conn.calls) + TagCalls(identifier, updatedTags)
    ensures e == (if |updatedTags| > 0 then old(conn.TagRefusal(AddTagsApi, identifier)) else None)
    ensures e.Some? ==> conn.tags == old(conn.tags)
    ensures e.None? ==> conn.TagsOf(identifier) == old(conn.TagsOf(identifier)) + TagValues(NonAwsTags(updatedTags))
    ensures conn.tags - {identifier} == old(conn.tags) - {identifier}
  {
    if |updatedTags| > 0 {
      var userTags := IgnoreAws(updatedTags);
      var tagList := Map(userTags);
      e := conn.AddTagsToResource(identifier, tagList);
      if e.None? {
        OverwriteThenDrop(old(conn.tags), identifier, old(conn.TagsOf(identifier)) + TagValues(NonAwsTags(updatedTags)));
      }
    } else {
      e := None;
      assert TagValues(NonAwsTags(updatedTags)) == map[];
    }
  }

  /** The outcome of a tag reconciliation: the error returned, the requests sent, and the tags
      the resource holds afterwards. */
  datatype TagUpdate = TagUpdate(err: Option<Error>, calls: seq<Call>, tags: map<string, string>)

  /** What reconciling the tags of `identifier` does, given its two diffs, for a store that
      denies `denied`, in which the resource exists iff `present`, and that holds `remote` as its
      tags:
      - a remove request only when some key was removed; its refusal is returned at once as an
        untagging error, with the tags untouched;
      - then an add request only when some key was added or changed; its refusal is returned as
        a tagging error, with the removal done;
      - otherwise no error, with the removed user keys dropped and the updated user tags
        written. */
  function TagUpdateOutcome(denied: set<Api>, present: bool, identifier: string, remote: map<string, string>,
                            removed: KeyValueTags, updated: KeyValueTags): TagUpdate
  {
    var untagRefusal := if |removed| > 0 then TagRefusalFor(denied, RemoveTagsApi, present) else None;
    var tagRefusal := if |updated| > 0 then TagRefusalFor(denied, AddTagsApi, present) else None;
    if untagRefusal.Some? then
      TagUpdate(Some(Untagging(identifier, Aws(untagRefusal.value))), UntagCalls(identifier, removed), remote)
    else if tagRefusal.Some? then
      TagUpdate(Some(Tagging(identifier, Aws(tagRefusal.value))),
                UntagCalls(identifier, removed) + TagCalls(identifier, updated),
                remote - NonAwsTags(removed).Keys)
    else
      TagUpdate(None, UntagCalls(identifier, removed) + TagCalls(identifier, updated),
                (remote - NonAwsTags(removed).Keys) + TagValues(NonAwsTags(updated)))
  }

  /** The outcome of reconciling the tags of `identifier` in `conn` from `oldTags` to `newTags`. */
  function TagReconciliation(conn: ParameterStore, identifier: string, oldTags: KeyValueTags, newTags: KeyValueTags): TagUpdate
    reads conn
  {
    TagUpdateOutcome(conn.denied, identifier in conn.params, identifier, conn.TagsOf(identifier),
                     RemovedTags(oldTags, newTags), UpdatedTags(oldTags, newTags))
  }

  /** The two requests of SsmUpdateTags for the diffs `removedTags` and `updatedTags`, as
      TagUpdateOutcome describes; a refused remove request leaves every tag as it was, and only
      the tags of `identifier` ever change. */
  method SendTagDiffs(conn: ParameterStore, identifier: string, removedTags: KeyValueTags, updatedTags: KeyValueTags)
    returns (err: Option<Error>)
    modifies conn`tags, conn`calls
    ensures var u := old(TagUpdateOutcome(conn.denied, identifier in conn.params, identifier, conn.TagsOf(identifier),
                                          removedTags, updatedTags));
      err == u.err && conn.calls == old(conn.calls) + u.calls && conn.TagsOf(identifier) == u.tags
    ensures err.Some? && err.value.Untagging? ==> conn.tags == old(conn.tags)
    ensures conn.tags - {identifier} == old(conn.tags) - {identifier}
  {
    ghost var untagRefusal := if |removedTags| > 0 then TagRefusalFor(conn.denied, RemoveTagsApi, identifier in conn.params) else None;
    ghost var tagRefusal := if |updatedTags| > 0 then TagRefusalFor(conn.denied, AddTagsApi, identifier in conn.params) else None;
    var e := UntagResource(conn, identifier, removedTags);
    assert e == untagRefusal;
    if e.Some? {
      return Some(Untagging(identifier, Aws(e.value)));
    }
    e := TagResource(conn, identifier, updatedTags);
    assert e == tagRefusal;
    if e.Some? {
      return Some(Tagging(identifier, Aws(e.value)));
    }
    return None;
  }

  /** Reconciles the resource's tags from `oldTagsMap` to `newTagsMap`, as TagReconciliation
      describes; a refused remove request leaves every tag as it was, and only the tags of
      `identifier` ever change. */
  method SsmUpdateTags(conn: ParameterStore, identifier: string, oldTagsMap: TagInput, newTagsMap: TagInput)
    returns (err: Option<Error>)
    modifies conn`tags, conn`calls
    ensures var u := old(TagReconciliation(conn, identifier, TagsFrom(oldTagsMap), TagsFrom(newTagsMap)));
      err == u.err && conn.calls == old(conn.calls) + u.calls && conn.TagsOf(identifier) == u.tags
    ensures err.Some? && err.value.Untagging? ==> conn.tags == old(conn.tags)
    ensures conn.tags - {identifier} == old(conn.tags) - {identifier}
  {
    var removedTags, updatedTags := TagDiffs(oldTagsMap, newTagsMap);
    err := SendTagDiffs(conn, identifier, removedTags, updatedTags);
  }
}
