/** The tag-set algebra of encryptedssm/util.go.

    A tag set (`KeyValueTags`) maps a tag key to a possibly nil `TagData`. Every operation here
    builds a fresh result and never changes its inputs. Each one is given twice: as a function
    (a map comprehension) that serves as its specification, and as a method with the loop the
    source runs over the map, proved to compute exactly that specification.

    Go ranges over a map in no particular order; the loops below pick an arbitrary key that has
    not been visited yet, so their proofs hold for every iteration order. */
module Tags {
  import opened Wrappers

  /** Keys with this prefix belong to the cloud platform and are never managed by users. */
  const AwsTagKeyPrefix := "aws:"

  /** The data attached to one tag key: its value and two maps of extra per-tag fields.
      Every Go pointer or map that may be nil is an Option, so a nil map and an empty map stay
      different, as they are for the deep comparison `Equal` performs. */
  datatype TagData = TagData(
    additionalBoolFields: Option<map<string, Option<bool>>>,
    additionalStringFields: Option<map<string, Option<string>>>,
    value: Option<string>)

  /** A tag set: tag key to a possibly nil TagData. */
  type KeyValueTags = map<string, Option<TagData>>

  /** Tags to hide when presenting observed tags: explicit keys, and key prefixes (the keys of
      `keyPrefixes` are the prefixes; its values are ignored). */
  datatype IgnoreConfig = IgnoreConfig(keys: KeyValueTags, keyPrefixes: KeyValueTags)

  /** The input shapes `New` accepts, one constructor per case of its type switch. Elements of
      the `interface{}` shapes are strings (a non-string element makes the source panic). */
  datatype TagInput =
    | TagDataMap(tagData: map<string, Option<TagData>>)
    | StringMap(strings: map<string, string>)
    | StringPointerMap(pointers: map<string, Option<string>>)
    | InterfaceMap(values: map<string, string>)
    | StringList(keys: seq<string>)
    | InterfaceList(items: seq<string>)
    | Unsupported

  predicate HasPrefix(s: string, prefix: string) {
    |prefix| <= |s| && s[..|prefix|] == prefix
  }

  /** Some element of `prefixes` is a prefix of `k`. */
  predicate MatchesAnyPrefix(k: string, prefixes: set<string>) {
    exists p :: p in prefixes && HasPrefix(k, p)
  }

  /** The plain value `Map` reports for one tag: "" for a nil TagData or a nil Value. */
  function ValueOf(v: Option<TagData>): string {
    if v.None? || v.value.value.None? then "" else v.value.value.value
  }

  // ----- Specifications -----

  function NonAwsTags(tags: KeyValueTags): KeyValueTags {
    map k | k in tags && !HasPrefix(k, AwsTagKeyPrefix) :: tags[k]
  }

  function TagsWithoutPrefixes(tags: KeyValueTags, prefixes: KeyValueTags): KeyValueTags {
    map k | k in tags && !MatchesAnyPrefix(k, prefixes.Keys) :: tags[k]
  }

  function TagsWithoutKeys(tags: KeyValueTags, ignored: KeyValueTags): KeyValueTags {
    map k | k in tags && k !in ignored :: tags[k]
  }

  /** No configuration leaves the tags alone; otherwise prefixes are filtered, then keys. */
  function ConfiguredTags(tags: KeyValueTags, config: Option<IgnoreConfig>): KeyValueTags {
    if config.None? then tags
    else TagsWithoutKeys(TagsWithoutPrefixes(tags, config.value.keyPrefixes), config.value.keys)
  }

  function TagValues(tags: KeyValueTags): map<string, string> {
    map k | k in tags :: ValueOf(tags[k])
  }

  /** Keys of `tags` that `newTags` no longer has, with their old data. */
  function RemovedTags(tags: KeyValueTags, newTags: KeyValueTags): KeyValueTags {
    map k | k in tags && k !in newTags :: tags[k]
  }

  /** Keys of `newTags` that `tags` lacks or holds with different data, with their new data. */
  function UpdatedTags(tags: KeyValueTags, newTags: KeyValueTags): KeyValueTags {
    map k | k in newTags && (k !in tags || !Equal(tags[k], newTags[k])) :: newTags[k]
  }

  /** The tag set `New` builds from each input shape. */
  function TagsFrom(input: TagInput): KeyValueTags {
    match input
    case TagDataMap(m) => m
    case StringMap(m) => map k | k in m :: Some(TagData(None, None, Some(m[k])))
    case StringPointerMap(m) =>
      map k | k in m :: if m[k].None? then None else Some(TagData(None, None, m[k]))
    case InterfaceMap(m) => map k | k in m :: Some(TagData(None, None, Some(m[k])))
    case StringList(ks) => map k | k in ks :: None
    case InterfaceList(ks) => map k | k in ks :: None
    case Unsupported => map[]
  }

  // ----- TagData.Equal -----

  /** Nil equals only nil; two TagData are equal when both extra-field maps (nil or not) and
      the value agree. That is exactly structural equality, so Equal is an equivalence. */
  function Equal(td: Option<TagData>, other: Option<TagData>): (r: bool)
    ensures r <==> td == other
  {
    if td.None? && other.None? then true
    else if td.None? || other.None? then false
    else if td.value.additionalBoolFields != other.value.additionalBoolFields then false
    else if td.value.additionalStringFields != other.value.additionalStringFields then false
    else if td.value.value != other.value.value then false
    else true
  }

  // ----- The operations, as the loops the source runs -----

  /** Drops every key that starts with "aws:"; kept keys keep their data. */
  method IgnoreAws(tags: KeyValueTags) returns (result: KeyValueTags)
    ensures forall k :: k in result <==> k in tags && !HasPrefix(k, AwsTagKeyPrefix)
    ensures forall k :: k in result ==> result[k] == tags[k]
    ensures result == NonAwsTags(tags)
  {
    result := map[];
    var pending := tags.Keys;
    while pending != {}
      invariant pending <= tags.Keys
      invariant forall k :: k in result <==> k in tags && k !in pending && !HasPrefix(k, AwsTagKeyPrefix)
      invariant forall k :: k in result ==> result[k] == tags[k]
      decreases pending
    {
      var k :| k in pending;
      if !HasPrefix(k, AwsTagKeyPrefix) {
        result := result[k := tags[k]];
      }
      pending := pending - {k};
    }
  }

  /** The inner loop of IgnorePrefixes: does some ignored prefix start `k`? */
  method MatchesIgnoredPrefix(k: string, ignoreTagPrefixes: KeyValueTags) returns (ignore: bool)
    ensures ignore <==> MatchesAnyPrefix(k, ignoreTagPrefixes.Keys)
  {
    ignore := false;
    var pending := ignoreTagPrefixes.Keys;
    while pending != {}
      invariant pending <= ignoreTagPrefixes.Keys
      invariant ignore ==> MatchesAnyPrefix(k, ignoreTagPrefixes.Keys)
      invariant !ignore ==> forall p :: p in ignoreTagPrefixes && p !in pending ==> !HasPrefix(k, p)
      decreases pending
    {
      var p :| p in pending;
      if HasPrefix(k, p) {
        ignore := true;
        break;
      }
      pending := pending - {p};
    }
  }

  /** Keeps a key exactly when no ignored prefix starts it; kept keys keep their data. */
  method IgnorePrefixes(tags: KeyValueTags, ignoreTagPrefixes: KeyValueTags) returns (result: KeyValueTags)
    ensures forall k :: k in result <==>
      k in tags && forall p :: p in ignoreTagPrefixes ==> !HasPrefix(k, p)
    ensures forall k :: k in result ==> result[k] == tags[k]
    ensures result == TagsWithoutPrefixes(tags, ignoreTagPrefixes)
  {
    result := map[];
    var pending := tags.Keys;
    while pending != {}
      invariant pending <= tags.Keys
      invariant forall k :: k in result <==>
        k in tags && k !in pending && !MatchesAnyPrefix(k, ignoreTagPrefixes.Keys)
      invariant forall k :: k in result ==> result[k] == tags[k]
      decreases pending
    {
      var k :| k in pending;
      var ignore := MatchesIgnoredPrefix(k, ignoreTagPrefixes);
      if !ignore {
        result := result[k := tags[k]];
      }
      pending := pending - {k};
    }
  }

  /** Drops every key present in `ignoreTags`; kept keys keep their data. */
  method Ignore(tags: KeyValueTags, ignoreTags: KeyValueTags) returns (result: KeyValueTags)
    ensures forall k :: k in result <==> k in tags && k !in ignoreTags
    ensures forall k :: k in result ==> result[k] == tags[k]
    ensures result == TagsWithoutKeys(tags, ignoreTags)
  {
    result := map[];
    var pending := tags.Keys;
    while pending != {}
      invariant pending <= tags.Keys
      invariant forall k :: k in result <==> k in tags && k !in pending && k !in ignoreTags
      invariant forall k :: k in result ==> result[k] == tags[k]
      decreases pending
    {
      var k :| k in pending;
      if k !in ignoreTags {
        result := result[k := tags[k]];
      }
      pending := pending - {k};
    }
  }

  /** A nil configuration returns the tags unchanged; otherwise prefixes, then keys, are dropped. */
  method ApplyIgnoreConfig(tags: KeyValueTags, config: Option<IgnoreConfig>) returns (result: KeyValueTags)
    ensures config.None? ==> result == tags
    ensures config.Some? ==> forall k :: k in result <==>
      k in tags && k !in config.value.keys && !MatchesAnyPrefix(k, config.value.keyPrefixes.Keys)
    ensures forall k :: k in result ==> result[k] == tags[k]
    ensures result == ConfiguredTags(tags, config)
  {
    if config.None? {
      return tags;
    }
    result := IgnorePrefixes(tags, config.value.keyPrefixes);
    result := Ignore(result, config.value.keys);
  }

  /** Same keys; each value is the tag's Value, or "" when the TagData or its Value is nil. */
  method Map(tags: KeyValueTags) returns (result: map<string, string>)
    ensures result.Keys == tags.Keys
    ensures forall k :: k in tags && (tags[k].None? || tags[k].value.value.None?) ==> result[k] == ""
    ensures forall k :: k in tags && tags[k].Some? && tags[k].value.value.Some? ==>
      result[k] == tags[k].value.value.value
    ensures result == TagValues(tags)
  {
    result := map[];
    var pending := tags.Keys;
    while pending != {}
      invariant pending <= tags.Keys
      invariant result.Keys == tags.Keys - pending
      invariant forall k :: k in result ==> result[k] == ValueOf(tags[k])
      decreases pending
    {
      var k :| k in pending;
      var v := tags[k];
      if v.None? || v.value.value.None? {
        result := result[k := ""];
      } else {
        result := result[k := v.value.value.value];
      }
      pending := pending - {k};
    }
  }

  /** Every key of the tag set, each exactly once, in no particular order. */
  method Keys(tags: KeyValueTags) returns (result: seq<string>)
    ensures forall k :: k in result <==> k in tags
    ensures forall i, j :: 0 <= i < j < |result| ==> result[i] != result[j]
  {
    result := [];
    var pending := tags.Keys;
    while pending != {}
      invariant pending <= tags.Keys
      invariant forall k :: k in result <==> k in tags && k !in pending
      invariant forall i, j :: 0 <= i < j < |result| ==> result[i] != result[j]
      decreases pending
    {
      var k :| k in pending;
      result := result + [k];
      pending := pending - {k};
    }
  }

  /** Keys of `tags` absent from `newTags`, carrying their old data. */
  method Removed(tags: KeyValueTags, newTags: KeyValueTags) returns (result: KeyValueTags)
    ensures forall k :: k in result <==> k in tags && k !in newTags
    ensures forall k :: k in result ==> result[k] == tags[k]
    ensures result == RemovedTags(tags, newTags)
  {
    result := map[];
    var pending := tags.Keys;
    while pending != {}
      invariant pending <= tags.Keys
      invariant forall k :: k in result <==> k in tags && k !in pending && k !in newTags
      invariant forall k :: k in result ==> result[k] == tags[k]
      decreases pending
    {
      var k :| k in pending;
      if k !in newTags {
        result := result[k := tags[k]];
      }
      pending := pending - {k};
    }
  }

  /** Keys of `newTags` that are new or whose data differs from `tags`, carrying the new data;
      keys whose data is unchanged are left out. */
  method Updated(tags: KeyValueTags, newTags: KeyValueTags) returns (result: KeyValueTags)
    ensures forall k :: k in result <==> k in newTags && (k !in tags || tags[k] != newTags[k])
    ensures forall k :: k in result ==> result[k] == newTags[k]
    ensures result == UpdatedTags(tags, newTags)
  {
    result := map[];
    var pending := newTags.Keys;
    while pending != {}
      invariant pending <= newTags.Keys
      invariant forall k :: k in result <==>
        k in newTags && k !in pending && (k !in tags || !Equal(tags[k], newTags[k]))
      invariant forall k :: k in result ==> result[k] == newTags[k]
      decreases pending
    {
      var k :| k in pending;
      var newV := newTags[k];
      if k !in tags || !Equal(tags[k], newV) {
        result := result[k := newV];
      }
      pending := pending - {k};
    }
  }

  /** The loop each map case of New runs: every key, with its element converted to TagData. */
  method TagEach<V>(value: map<string, V>, tagData: V -> Option<TagData>) returns (kvtm: KeyValueTags)
    ensures kvtm.Keys == value.Keys
    ensures forall k :: k in value ==> kvtm[k] == tagData(value[k])
  {
    kvtm := map[];
    var pending := value.Keys;
    while pending != {}
      invariant pending <= value.Keys
      invariant kvtm.Keys == value.Keys - pending
      invariant forall k :: k in kvtm ==> kvtm[k] == tagData(value[k])
      decreases pending
    {
      var k :| k in pending;
      kvtm := kvtm[k := tagData(value[k])];
      pending := pending - {k};
    }
  }

  /** The loop each list case of New runs: every element becomes a key with nil data. */
  method TagKeys(keys: seq<string>) returns (kvtm: KeyValueTags)
    ensures forall k :: k in kvtm <==> k in keys
    ensures forall k :: k in kvtm ==> kvtm[k].None?
  {
    kvtm := map[];
    for i := 0 to |keys|
      invariant forall k :: k in kvtm <==> k in keys[..i]
      invariant forall k :: k in kvtm ==> kvtm[k].None?
    {
      kvtm := kvtm[keys[i] := None];
    }
  }

  /** Builds a tag set from any accepted input shape; an unsupported shape gives no tags. */
  method New(i: TagInput) returns (kvtm: KeyValueTags)
    ensures kvtm == TagsFrom(i)
  {
    match i
    case TagDataMap(value) =>
      kvtm := TagEach(value, (v: Option<TagData>) => v);
    case StringMap(value) =>
      kvtm := TagEach(value, (v: string) => Some(TagData(None, None, Some(v))));
    case StringPointerMap(value) =>
      kvtm := TagEach(value, (v: Option<string>) => if v.None? then None else Some(TagData(None, None, v)));
    case InterfaceMap(value) =>
      kvtm := TagEach(value, (v: string) => Some(TagData(None, None, Some(v))));
    case StringList(value) =>
      kvtm := TagKeys(value);
    case InterfaceList(value) =>
      kvtm := TagKeys(value);
    case Unsupported =>
      kvtm := map[];
  }
}
