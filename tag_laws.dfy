/** Laws of the tag-set algebra: how the filters relate to one another, and that the two diffs
    `Removed` and `Updated` are exactly what it takes to turn the old tag set into the new one. */
module TagLaws {
  import opened Wrappers
  import opened Tags

  /** Dropping "aws:" keys is prefix filtering with the single prefix "aws:". */
  lemma NonAwsIsPrefixFilter(tags: KeyValueTags)
    ensures NonAwsTags(tags) == TagsWithoutPrefixes(tags, map[AwsTagKeyPrefix := None])
  {
    var prefixes: KeyValueTags := map[AwsTagKeyPrefix := None];
    forall k | k in tags
      ensures MatchesAnyPrefix(k, prefixes.Keys) <==> HasPrefix(k, AwsTagKeyPrefix)
    {
      if HasPrefix(k, AwsTagKeyPrefix) {
        assert AwsTagKeyPrefix in prefixes.Keys;
      }
    }
  }

  /** Filtering again changes nothing. */
  lemma FiltersAreIdempotent(tags: KeyValueTags, config: Option<IgnoreConfig>)
    ensures NonAwsTags(NonAwsTags(tags)) == NonAwsTags(tags)
    ensures ConfiguredTags(ConfiguredTags(tags, config), config) == ConfiguredTags(tags, config)
  {
  }

  /** The two presentation filters can be applied in either order. */
  lemma FiltersCommute(tags: KeyValueTags, config: Option<IgnoreConfig>)
    ensures ConfiguredTags(NonAwsTags(tags), config) == NonAwsTags(ConfiguredTags(tags, config))
  {
  }

  /** What a presentation filter keeps is a sub-map of what it was given. */
  lemma FilteredTagsAreSubMap(tags: KeyValueTags, config: Option<IgnoreConfig>)
    ensures var kept := ConfiguredTags(NonAwsTags(tags), config);
      forall k :: k in kept ==> k in tags && kept[k] == tags[k]
  {
  }

  /** The two diffs never share a key: a removed key is absent from the new set, an updated one
      is present in it. */
  lemma DiffsAreDisjoint(tags: KeyValueTags, newTags: KeyValueTags)
    ensures RemovedTags(tags, newTags).Keys !! UpdatedTags(tags, newTags).Keys
    ensures RemovedTags(tags, newTags).Keys !! newTags.Keys
  {
  }

  /** Patching the old set with the diffs (drop the removed keys, then write the updated ones)
      yields the new set exactly. */
  lemma {:induction false} DiffsPatchOldIntoNew(tags: KeyValueTags, newTags: KeyValueTags)
    ensures (tags - RemovedTags(tags, newTags).Keys) + UpdatedTags(tags, newTags) == newTags
  {
    var patched := (tags - RemovedTags(tags, newTags).Keys) + UpdatedTags(tags, newTags);
    forall k | k in newTags
      ensures k in patched && patched[k] == newTags[k]
    {
      if k !in UpdatedTags(tags, newTags) {
        assert k in tags && Equal(tags[k], newTags[k]);
      }
    }
    assert patched.Keys == newTags.Keys;
  }

  /** Both diffs are empty exactly when the two tag sets are equal. */
  lemma {:induction false} NoDiffIffEqual(tags: KeyValueTags, newTags: KeyValueTags)
    ensures RemovedTags(tags, newTags) == map[] && UpdatedTags(tags, newTags) == map[]
        <==> tags == newTags
  {
    if RemovedTags(tags, newTags) == map[] && UpdatedTags(tags, newTags) == map[] {
      DiffsPatchOldIntoNew(tags, newTags);
      assert tags - RemovedTags(tags, newTags).Keys == tags;
    }
    if tags == newTags {
      forall k | k in newTags ensures k !in UpdatedTags(tags, newTags) {
        assert Equal(tags[k], newTags[k]);
      }
      assert UpdatedTags(tags, newTags).Keys == {};
    }
  }

  /** A plain string map survives `New` followed by `Map`, for both map shapes that carry
      strings. */
  lemma StringMapRoundTrip(m: map<string, string>)
    ensures TagValues(TagsFrom(StringMap(m))) == m
    ensures TagValues(TagsFrom(InterfaceMap(m))) == m
  {
  }

  /** A key list becomes tags with nil data, which `Map` reports as empty strings. */
  lemma KeyListHasEmptyValues(keys: seq<string>)
    ensures TagValues(TagsFrom(StringList(keys))) == map k | k in keys :: ""
  {
  }

  /** Equal tells a nil extra-field map from an empty one, as a deep comparison does. */
  lemma EqualSeparatesNilFromEmpty(value: Option<string>)
    ensures !Equal(Some(TagData(None, None, value)), Some(TagData(Some(map[]), None, value)))
    ensures !Equal(Some(TagData(None, None, value)), Some(TagData(None, Some(map[]), value)))
  {
  }
}
