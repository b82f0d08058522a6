/**
 * AbstractSystemMetadataWriter: rewriting the SYSTEM-scope metadata of one entity. Existing properties
 * are removed except the preserved ones, all tags are removed, and then the entity's new properties,
 * tags and schema are written. Also the `addPlugin` helper that adds a plugin's properties to a
 * map builder.
 *
 * The metadata store is an object holding the entity's SYSTEM properties and tags; every call made to
 * it is recorded, so the calls `write` makes and their order can be stated.
 */
module SystemMetadata {
  import opened Wrappers

  const SCHEMA_FIELD_PROPERTY_PREFIX: string := "schema"
  const PLUGIN_KEY_PREFIX: string := "plugin"
  const PLUGIN_VERSION_KEY_PREFIX: string := "plugin-version"
  const DESCRIPTION: string := "description"
  const CREATION_TIME: string := "creation-time"

  /** System properties that a rewrite keeps, since they are not part of the entity's own properties. */
  const PRESERVE_PROPERTIES: set<string> := {CREATION_TIME, DESCRIPTION}

  /** The SYSTEM-scope metadata of the entity. */
  datatype Metadata = Metadata(properties: map<string, string>, tags: set<string>)

  /** A call made to the metadata store for the entity in the SYSTEM scope. */
  datatype StoreCall =
    | RemoveProperties(keys: set<string>)
    | RemoveTags
    | SetProperties(entries: map<string, string>, schemaIndexed: bool)
    | AddTags(added: seq<string>)

  /** What a call does to the metadata. */
  function Apply(m: Metadata, call: StoreCall): Metadata
  {
    match call
    case RemoveProperties(keys) =>
      m.(properties := map k | k in m.properties && k !in keys :: m.properties[k])
    case RemoveTags => m.(tags := {})
    case SetProperties(entries, _) => m.(properties := m.properties + entries)
    case AddTags(added) => m.(tags := m.tags + set t | t in added)
  }

  /** The metadata after a sequence of calls, applied in order. */
  function Replay(m: Metadata, calls: seq<StoreCall>): Metadata
    decreases |calls|
  {
    if calls == [] then m else Apply(Replay(m, calls[..|calls| - 1]), calls[|calls| - 1])
  }

  lemma ReplaySnoc(m: Metadata, calls: seq<StoreCall>, call: StoreCall)
    ensures Replay(m, calls + [call]) == Apply(Replay(m, calls), call)
  {
    assert (calls + [call])[..|calls|] == calls;
  }

  /** `!Strings.isNullOrEmpty(schema)` */
  predicate SchemaPresent(schema: Option<string>) {
    schema.Some? && schema.value != ""
  }

  /** The calls that clear the old metadata: the non-preserved properties when there are any, then all tags. */
  function RemovalCalls(existing: set<string>): seq<StoreCall>
  {
    var removeProperties := existing - PRESERVE_PROPERTIES;
    (if removeProperties != {} then [RemoveProperties(removeProperties)] else []) + [RemoveTags]
  }

  /** The calls that add the new metadata, each made only when there is something to add. */
  function AdditionCalls(properties: map<string, string>, tags: seq<string>, schema: Option<string>): seq<StoreCall>
  {
    (if |properties| > 0 then [SetProperties(properties, false)] else [])
    + (if |tags| > 0 then [AddTags(tags)] else [])
    + (if SchemaPresent(schema) then [SetProperties(map[SCHEMA_FIELD_PROPERTY_PREFIX := schema.value], true)] else [])
  }

  /** The calls `write` makes, given the keys of the existing properties and what the entity defines. */
  function WriteCalls(existing: set<string>, properties: map<string, string>, tags: seq<string>,
                      schema: Option<string>): seq<StoreCall>
  {
    RemovalCalls(existing) + AdditionCalls(properties, tags, schema)
  }

  predicate IsRemoval(call: StoreCall) {
    call.RemoveProperties? || call.RemoveTags?
  }

  /** Every removal a rewrite makes comes before every addition, and all tags are removed. */
  lemma WriteRemovesBeforeAdding(existing: set<string>, properties: map<string, string>, tags: seq<string>,
                                 schema: Option<string>)
    ensures var calls := WriteCalls(existing, properties, tags, schema);
            && RemoveTags in calls
            && (forall i, j :: 0 <= i < j < |calls| && IsRemoval(calls[j]) ==> IsRemoval(calls[i]))
  {
    var r := RemovalCalls(existing);
    var a := AdditionCalls(properties, tags, schema);
    assert forall c :: c in r ==> IsRemoval(c);
    assert forall c :: c in a ==> !IsRemoval(c);
    var calls := r + a;
    assert calls[|r| - 1] == RemoveTags;
    forall i, j | 0 <= i < j < |calls| && IsRemoval(calls[j])
      ensures IsRemoval(calls[i])
    {
      assert calls[i] in r;
    }
  }

  /**
   * The removal of the non-preserved properties is made exactly when there are any, and names exactly
   * those.
   */
  lemma WriteRemovesUnpreserved(existing: set<string>, properties: map<string, string>, tags: seq<string>,
                                schema: Option<string>)
    ensures forall keys :: RemoveProperties(keys) in WriteCalls(existing, properties, tags, schema) <==>
              keys == existing - PRESERVE_PROPERTIES && keys != {}
  {
    var a := AdditionCalls(properties, tags, schema);
    assert forall c :: c in a ==> !c.RemoveProperties?;
  }

  /**
   * The new properties are set exactly when there are some, the new tags added exactly when there are
   * some, and the schema set (indexed, under "schema") exactly when it is present and not empty.
   */
  lemma WriteAddsOnlyWhatIsDefined(existing: set<string>, properties: map<string, string>, tags: seq<string>,
                                   schema: Option<string>)
    ensures var calls := WriteCalls(existing, properties, tags, schema);
            && (SetProperties(properties, false) in calls <==> |properties| > 0)
            && (forall c :: c in calls && c.SetProperties? && !c.schemaIndexed ==> c.entries == properties)
            && (AddTags(tags) in calls <==> |tags| > 0)
            && (forall c :: c in calls && c.AddTags? ==> c.added == tags)
            && ((exists c :: c in calls && c.SetProperties? && c.schemaIndexed) <==> SchemaPresent(schema))
            && (forall c :: c in calls && c.SetProperties? && c.schemaIndexed ==>
                  SchemaPresent(schema) && c.entries == map[SCHEMA_FIELD_PROPERTY_PREFIX := schema.value])
  {
    var r := RemovalCalls(existing);
    var a := AdditionCalls(properties, tags, schema);
    assert forall c :: c in r ==> IsRemoval(c);
    if SchemaPresent(schema) {
      assert a[|a| - 1] == SetProperties(map[SCHEMA_FIELD_PROPERTY_PREFIX := schema.value], true);
      assert a[|a| - 1] in r + a;
    }
  }

  /** Applying two sequences of calls is applying their concatenation. */
  lemma {:induction false} ReplayAppend(m: Metadata, calls: seq<StoreCall>, more: seq<StoreCall>)
    ensures Replay(m, calls + more) == Replay(Replay(m, calls), more)
    decreases |more|
  {
    if more == [] {
      assert calls + more == calls;
    } else {
      var front := more[..|more| - 1];
      var last := more[|more| - 1];
      assert more == front + [last];
      assert calls + more == (calls + front) + [last];
      ReplayAppend(m, calls, front);
      ReplaySnoc(m, calls + front, last);
      ReplaySnoc(Replay(m, calls), front, last);
    }
  }

  /**
   * Regrouping a concatenation of call logs. Kept as its own lemma so that the methods appending
   * to the store's log reason about one regrouping at a time.
   */
  lemma AppendAssoc<T>(a: seq<T>, b: seq<T>, c: seq<T>)
    ensures a + b + c == a + (b + c)
  {
  }

  /** Applying no call or one call. */
  lemma ReplayOptional(m: Metadata, present: bool, call: StoreCall)
    ensures Replay(m, if present then [call] else []) == if present then Apply(m, call) else m
  {
    if present {
      ReplaySnoc(m, [], call);
      assert [] + [call] == [call];
    }
  }

  /** The properties the preservation rule keeps. */
  function Preserved(properties: map<string, string>): map<string, string>
  {
    map k | k in properties && k in PRESERVE_PROPERTIES :: properties[k]
  }

  /** Clearing leaves the preserved properties and no tags. */
  lemma RemovalResult(m: Metadata)
    ensures Replay(m, RemovalCalls(m.properties.Keys)) == Metadata(Preserved(m.properties), {})
  {
    var removeProperties := m.properties.Keys - PRESERVE_PROPERTIES;
    var c0: seq<StoreCall> := if removeProperties != {} then [RemoveProperties(removeProperties)] else [];
    ReplayOptional(m, removeProperties != {}, RemoveProperties(removeProperties));
    ReplaySnoc(m, c0, RemoveTags);
  }

  lemma ReplaySetProperties(m: Metadata, properties: map<string, string>)
    ensures Replay(m, if |properties| > 0 then [SetProperties(properties, false)] else [])
              == m.(properties := m.properties + properties)
  {
    ReplayOptional(m, |properties| > 0, SetProperties(properties, false));
    if |properties| == 0 {
      assert properties == map[];
      assert m.properties + properties == m.properties;
    }
  }

  lemma ReplayAddTags(m: Metadata, tags: seq<string>)
    ensures Replay(m, if |tags| > 0 then [AddTags(tags)] else []) == m.(tags := m.tags + set t | t in tags)
  {
    ReplayOptional(m, |tags| > 0, AddTags(tags));
    if |tags| == 0 {
      assert (set t | t in tags) == {};
      assert m.tags + (set t | t in tags) == m.tags;
    }
  }

  /** Adding the new metadata to cleared metadata. */
  lemma AdditionResult(kept: map<string, string>, properties: map<string, string>, tags: seq<string>,
                       schema: Option<string>)
    ensures Replay(Metadata(kept, {}), AdditionCalls(properties, tags, schema))
              == Metadata(Rewritten(kept, properties, schema), set t | t in tags)
  {
    var m := Metadata(kept, {});
    var c2: seq<StoreCall> := if |properties| > 0 then [SetProperties(properties, false)] else [];
    var c3: seq<StoreCall> := if |tags| > 0 then [AddTags(tags)] else [];
    var m2 := Metadata(kept + properties, {});
    var m3 := Metadata(kept + properties, set t | t in tags);
    assert Replay(m, c2 + c3) == m3 by {
      ReplaySetProperties(m, properties);
      ReplayAddTags(m2, tags);
      ReplayAppend(m, c2, c3);
      assert {} + (set t | t in tags) == set t | t in tags;
    }
    if SchemaPresent(schema) {
      var entry := map[SCHEMA_FIELD_PROPERTY_PREFIX := schema.value];
      var c4 := [SetProperties(entry, true)];
      assert AdditionCalls(properties, tags, schema) == (c2 + c3) + c4;
      ReplayAppend(m, c2 + c3, c4);
      ReplaySnoc(m3, [], SetProperties(entry, true));
      assert [] + c4 == c4;
    } else {
      assert AdditionCalls(properties, tags, schema) == c2 + c3;
    }
  }

  /** The properties a rewrite leaves: the kept ones, overwritten by the new ones and then by the schema. */
  function Rewritten(kept: map<string, string>, properties: map<string, string>, schema: Option<string>)
    : map<string, string>
  {
    var added := kept + properties;
    if SchemaPresent(schema) then added + map[SCHEMA_FIELD_PROPERTY_PREFIX := schema.value] else added
  }

  /**
   * The properties after a rewrite are exactly the preserved old ones, the new ones and the schema,
   * later ones taking precedence; every other old property is gone.
   */
  lemma RewrittenProperties(old_: map<string, string>, properties: map<string, string>, schema: Option<string>)
    ensures var r := Rewritten(Preserved(old_), properties, schema);
            && (forall k :: k in r <==>
                  || (k in old_ && k in PRESERVE_PROPERTIES)
                  || k in properties
                  || (k == SCHEMA_FIELD_PROPERTY_PREFIX && SchemaPresent(schema)))
            && (SchemaPresent(schema) ==> r[SCHEMA_FIELD_PROPERTY_PREFIX] == schema.value)
            && (forall k :: k in properties && !(k == SCHEMA_FIELD_PROPERTY_PREFIX && SchemaPresent(schema))
                  ==> r[k] == properties[k])
            && (forall k :: k in old_ && k in PRESERVE_PROPERTIES && k !in properties
                  && !(k == SCHEMA_FIELD_PROPERTY_PREFIX && SchemaPresent(schema))
                  ==> r[k] == old_[k])
  {
  }

  /** The calls of a rewrite, applied in order, produce the rewritten properties and exactly the new tags. */
  lemma WriteResult(m: Metadata, properties: map<string, string>, tags: seq<string>, schema: Option<string>)
    ensures Replay(m, WriteCalls(m.properties.Keys, properties, tags, schema))
              == Metadata(Rewritten(Preserved(m.properties), properties, schema), set t | t in tags)
  {
    ReplayAppend(m, RemovalCalls(m.properties.Keys), AdditionCalls(properties, tags, schema));
    RemovalResult(m);
    AdditionResult(Preserved(m.properties), properties, tags, schema);
  }

  /** The SYSTEM-scope metadata of the entity, held by the store. */
  class MetadataStore {
    var properties: map<string, string>
    var tags: set<string>
    /** Every call made to the store, in order. */
    var calls: seq<StoreCall>

    constructor(properties: map<string, string>, tags: set<string>)
      ensures this.properties == properties && this.tags == tags && calls == []
    {
      this.properties := properties;
      this.tags := tags;
      calls := [];
    }

    /** getProperties(SYSTEM, entity) */
    method GetProperties() returns (result: map<string, string>)
      ensures result == properties
    {
      result := properties;
    }

    /** removeProperties(SYSTEM, entity, keys) */
    method RemoveProperties(keys: set<string>)
      modifies this
      ensures calls == old(calls) + [StoreCall.RemoveProperties(keys)]
      ensures properties == map k | k in old(properties) && k !in keys :: old(properties)[k]
      ensures tags == old(tags)
    {
      properties := map k | k in properties && k !in keys :: properties[k];
      calls := calls + [StoreCall.RemoveProperties(keys)];
    }

    /** removeTags(SYSTEM, entity): removes all of the entity's SYSTEM tags. */
    method RemoveTags()
      modifies this
      ensures calls == old(calls) + [StoreCall.RemoveTags]
      ensures properties == old(properties) && tags == {}
    {
      tags := {};
      calls := calls + [StoreCall.RemoveTags];
    }

    /** setProperties(SYSTEM, entity, entries), with a schema indexer or without. */
    method SetProperties(entries: map<string, string>, schemaIndexed: bool)
      modifies this
      ensures calls == old(calls) + [StoreCall.SetProperties(entries, schemaIndexed)]
      ensures properties == old(properties) + entries && tags == old(tags)
    {
      properties := properties + entries;
      calls := calls + [StoreCall.SetProperties(entries, schemaIndexed)];
    }

    /** addTags(SYSTEM, entity, added) */
    method AddTags(added: seq<string>)
      modifies this
      ensures calls == old(calls) + [StoreCall.AddTags(added)]
      ensures properties == old(properties) && tags == old(tags) + set t | t in added
    {
      tags := tags + set t | t in added;
      calls := calls + [StoreCall.AddTags(added)];
    }
  }

  /** An ImmutableMap.Builder: the entries put into it, in order. */
  class PropertiesBuilder {
    var entries: seq<(string, string)>

    constructor()
      ensures entries == []
    {
      entries := [];
    }

    method Put(key: string, value: string)
      modifies this
      ensures entries == old(entries) + [(key, value)]
    {
      entries := entries + [(key, value)];
    }
  }

  function PluginKey(name: string, pluginType: string, separator: string): string {
    PLUGIN_KEY_PREFIX + separator + name + separator + pluginType
  }

  function PluginVersionKey(name: string, pluginType: string, separator: string): string {
    PLUGIN_VERSION_KEY_PREFIX + separator + name + separator + pluginType
  }

  /** The entries `addPlugin` puts: the plugin itself, and its version when it has one. */
  function PluginEntries(name: string, pluginType: string, version: Option<string>, separator: string)
    : seq<(string, string)>
  {
    [(PluginKey(name, pluginType, separator), name + separator + pluginType)]
    + if version.Some? then [(PluginVersionKey(name, pluginType, separator), name + separator + version.value)] else []
  }

  /** Two strings split at the first occurrence of a character that neither head contains split the same way. */
  lemma {:induction false} SplitAtFirst(a: string, b: string, x: string, y: string, c: char)
    requires c !in a && c !in x
    requires a + [c] + b == x + [c] + y
    ensures a == x && b == y
  {
    var s := a + [c] + b;
    IndexOfFirst(a, b, c);
    IndexOfFirst(x, y, c);
    assert a == s[..|a|] == x;
    assert b == s[|a| + 1..] == y;
  }

  /** The position of the first `c` in `s`, or |s| when there is none. */
  function IndexOf(s: string, c: char): (i: nat)
    ensures i <= |s|
  {
    if s == [] then 0 else if s[0] == c then 0 else 1 + IndexOf(s[1..], c)
  }

  lemma {:induction false} IndexOfFirst(a: string, b: string, c: char)
    requires c !in a
    ensures IndexOf(a + [c] + b, c) == |a|
  {
    if a != [] {
      assert (a + [c] + b)[1..] == a[1..] + [c] + b;
      IndexOfFirst(a[1..], b, c);
    }
  }

  /** A one-character separator that occurs in no name or type. */
  predicate SeparatesNames(separator: string, names: seq<string>) {
    |separator| == 1 && forall n :: n in names ==> separator[0] !in n
  }

  /**
   * Plugin keys identify the plugin: with a separator that occurs in no name or type, two plugins get
   * the same key exactly when their names and their types are equal. The same holds of version keys,
   * and no plugin key is a version key.
   */
  lemma PluginKeysIdentifyPlugin(n1: string, t1: string, n2: string, t2: string, separator: string)
    requires SeparatesNames(separator, [n1, t1, n2, t2])
    ensures PluginKey(n1, t1, separator) == PluginKey(n2, t2, separator) <==> n1 == n2 && t1 == t2
    ensures PluginVersionKey(n1, t1, separator) == PluginVersionKey(n2, t2, separator) <==> n1 == n2 && t1 == t2
    ensures PluginKey(n1, t1, separator) != PluginVersionKey(n2, t2, separator)
  {
    var c := separator[0];
    assert separator == [c];
    if PluginKey(n1, t1, separator) == PluginKey(n2, t2, separator) {
      var p := PLUGIN_KEY_PREFIX + separator;
      assert PluginKey(n1, t1, separator) == p + (n1 + [c] + t1);
      assert PluginKey(n2, t2, separator) == p + (n2 + [c] + t2);
      assert n1 + [c] + t1 == n2 + [c] + t2 by {
        assert (p + (n1 + [c] + t1))[|p|..] == n1 + [c] + t1;
        assert (p + (n2 + [c] + t2))[|p|..] == n2 + [c] + t2;
      }
      SplitAtFirst(n1, t1, n2, t2, c);
    }
    if PluginVersionKey(n1, t1, separator) == PluginVersionKey(n2, t2, separator) {
      var p := PLUGIN_VERSION_KEY_PREFIX + separator;
      assert PluginVersionKey(n1, t1, separator) == p + (n1 + [c] + t1);
      assert PluginVersionKey(n2, t2, separator) == p + (n2 + [c] + t2);
      assert n1 + [c] + t1 == n2 + [c] + t2 by {
        assert (p + (n1 + [c] + t1))[|p|..] == n1 + [c] + t1;
        assert (p + (n2 + [c] + t2))[|p|..] == n2 + [c] + t2;
      }
      SplitAtFirst(n1, t1, n2, t2, c);
    }
    PluginKeyIsNoVersionKey(n1, t1, n2, t2, c);
  }

  lemma PluginKeyIsNoVersionKey(n1: string, t1: string, n2: string, t2: string, c: char)
    requires c !in n1 && c !in t1 && c !in n2 && c !in t2
    ensures PluginKey(n1, t1, [c]) != PluginVersionKey(n2, t2, [c])
  {
    var k1 := PluginKey(n1, t1, [c]);
    var k2 := PluginVersionKey(n2, t2, [c]);
    if k1 == k2 {
      assert k1[6] == c && k2[6] == '-';
      // The separator is '-': then "plugin-" + n1 + "-" + t1 == "plugin-" + "version" + "-" + (n2 + "-" + t2).
      assert k1 == "plugin-" + (n1 + [c] + t1);
      assert k2 == "plugin-" + ("version" + [c] + (n2 + [c] + t2));
      assert n1 + [c] + t1 == "version" + [c] + (n2 + [c] + t2) by {
        assert k1[7..] == n1 + [c] + t1;
        assert k2[7..] == "version" + [c] + (n2 + [c] + t2);
      }
      SplitAtFirst(n1, t1, "version", n2 + [c] + t2, c);
    }
  }

  /** Two plugins that differ in name or type put entries with no key in common. */
  lemma PluginEntriesKeysDisjoint(n1: string, t1: string, v1: Option<string>,
                                  n2: string, t2: string, v2: Option<string>, separator: string)
    requires SeparatesNames(separator, [n1, t1, n2, t2])
    requires n1 != n2 || t1 != t2
    ensures forall e1, e2 :: e1 in PluginEntries(n1, t1, v1, separator) && e2 in PluginEntries(n2, t2, v2, separator)
              ==> e1.0 != e2.0
  {
    PluginKeysIdentifyPlugin(n1, t1, n2, t2, separator);
    PluginKeysIdentifyPlugin(n2, t2, n1, t1, separator);
  }

  /**
   * The SYSTEM metadata writer of one entity. What the entity defines — its properties, tags and
   * schema — is given when the writer is made; the base class defines no schema (None).
   */
  class SystemMetadataWriter {
    const metadataStore: MetadataStore
    const systemPropertiesToAdd: map<string, string>
    const systemTagsToAdd: seq<string>
    const schemaToAdd: Option<string>

    constructor(metadataStore: MetadataStore, properties: map<string, string>, tags: seq<string>,
                schema: Option<string>)
      ensures this.metadataStore == metadataStore
      ensures systemPropertiesToAdd == properties && systemTagsToAdd == tags && schemaToAdd == schema
    {
      this.metadataStore := metadataStore;
      systemPropertiesToAdd := properties;
      systemTagsToAdd := tags;
      schemaToAdd := schema;
    }

    /** write(): the store receives exactly the calls of a rewrite, and ends in the state they produce. */
    method Write()
      modifies metadataStore
      ensures metadataStore.calls == old(metadataStore.calls)
                + WriteCalls(old(metadataStore.properties).Keys, systemPropertiesToAdd, systemTagsToAdd, schemaToAdd)
      ensures metadataStore.properties
                == Rewritten(Preserved(old(metadataStore.properties)), systemPropertiesToAdd, schemaToAdd)
      ensures metadataStore.tags == set t | t in systemTagsToAdd
    {
      ghost var calls0 := metadataStore.calls;
      DeleteExisting();
      ghost var calls1 := metadataStore.calls;
      AddNew();
      AppendAssoc(calls0, RemovalCalls(old(metadataStore.properties).Keys),
                  AdditionCalls(systemPropertiesToAdd, systemTagsToAdd, schemaToAdd));
    }

    /** The first half of write(): the existing system metadata is deleted, except the preserved properties. */
    method DeleteExisting()
      modifies metadataStore
      ensures metadataStore.calls == old(metadataStore.calls) + RemovalCalls(old(metadataStore.properties).Keys)
      ensures metadataStore.properties == Preserved(old(metadataStore.properties))
      ensures metadataStore.tags == {}
    {
      var existingProperties := metadataStore.GetProperties();
      var removeProperties := existingProperties.Keys - PRESERVE_PROPERTIES;
      if removeProperties != {} {
        metadataStore.RemoveProperties(removeProperties);
      }
      metadataStore.RemoveTags();
    }

    /** The second half of write(): the new properties, tags and schema are added, each only when defined. */
    method AddNew()
      modifies metadataStore
      ensures metadataStore.calls == old(metadataStore.calls)
                + AdditionCalls(systemPropertiesToAdd, systemTagsToAdd, schemaToAdd)
      ensures metadataStore.properties == Rewritten(old(metadataStore.properties), systemPropertiesToAdd, schemaToAdd)
      ensures metadataStore.tags == old(metadataStore.tags) + set t | t in systemTagsToAdd
    {
      ghost var calls1 := metadataStore.calls;
      var properties := systemPropertiesToAdd;
      ghost var c2: seq<StoreCall> := if |properties| > 0 then [StoreCall.SetProperties(properties, false)] else [];
      if |properties| > 0 {
        metadataStore.SetProperties(properties, false);
      } else {
        assert properties == map[];
        assert metadataStore.properties + properties == metadataStore.properties;
      }
      ghost var calls2 := metadataStore.calls;
      var tags := systemTagsToAdd;
      ghost var c3: seq<StoreCall> := if |tags| > 0 then [StoreCall.AddTags(tags)] else [];
      if |tags| > 0 {
        metadataStore.AddTags(tags);
      } else {
        assert (set t | t in tags) == {};
      }
      ghost var calls3 := metadataStore.calls;
      var schema := schemaToAdd;
      ghost var c4: seq<StoreCall> := [];
      if schema.Some? && schema.value != "" {
        var entry := map[SCHEMA_FIELD_PROPERTY_PREFIX := schema.value];
        metadataStore.SetProperties(entry, true);
        c4 := [StoreCall.SetProperties(entry, true)];
      }
      assert c2 + c3 + c4 == AdditionCalls(properties, tags, schema);
      assert metadataStore.calls == calls1 + AdditionCalls(properties, tags, schema) by {
        assert calls2 == calls1 + c2;
        assert calls3 == calls2 + c3;
        assert metadataStore.calls == calls3 + c4;
        AppendAssoc(calls1, c2, c3);
        AppendAssoc(calls1, c2 + c3, c4);
      }
    }

    /** addPlugin: the plugin's entries are put into the builder, after what it already holds. */
    method AddPlugin(name: string, pluginType: string, version: Option<string>, separator: string,
                     properties: PropertiesBuilder)
      modifies properties
      ensures properties.entries == old(properties.entries) + PluginEntries(name, pluginType, version, separator)
    {
      properties.Put(PLUGIN_KEY_PREFIX + separator + name + separator + pluginType, name + separator + pluginType);
      if version.Some? {
        properties.Put(PLUGIN_VERSION_KEY_PREFIX + separator + name + separator + pluginType,
                       name + separator + version.value);
      }
    }
  }
}
