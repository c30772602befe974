/**
 * The handoff between the trusted and the untrusted halves of a task
 * (`bot/tasks/utasks/uworker_io.py`, duplicated in `bot/tasks/commands.py`):
 * the storage path of an I/O file, the input dict preprocess builds and its
 * serialised form, the output dict the uworker returns and its serialised
 * form with the changes recorded by entity wrappers.
 *
 * A serialised payload is modelled by the JSON document it encodes (a
 * `Value`); `json.dumps` raises TypeError on anything that is not plain
 * JSON data. The base64 of a key's serialisation is a `KeyCodec`.
 */
module UworkerIo {
  import opened Wrappers
  import opened PyValues
  import opened EntityWrapper

  // ---------------------------------------------------------------------------
  // get_uworker_io_gcs_path

  /**
   * `get_uworker_io_gcs_path()` with the bucket and the fresh file name
   * given, and `existing` the paths storage already holds.
   */
  function GetUworkerIoGcsPath(bucket: string, name: string, existing: set<string>): (r: Result<string, Exc>)
    ensures r.Failure? <==> "/" + bucket + "/" + name in existing
    ensures r.Failure? ==> r.error == RuntimeError("UUID collision found: " + name + ".")
    ensures r.Success? ==> r.value !in existing && |r.value| == |bucket| + |name| + 2
  {
    var path := "/" + bucket + "/" + name;
    if path in existing then Failure(RuntimeError("UUID collision found: " + name + "."))
    else Success(path)
  }

  /** The bucket and the name can be read back from the path: it starts with '/', then the bucket, a '/', the name. */
  lemma GcsPathParts(bucket: string, name: string, existing: set<string>)
    requires GetUworkerIoGcsPath(bucket, name, existing).Success?
    ensures var p := GetUworkerIoGcsPath(bucket, name, existing).value;
            p[0] == '/' && p[1..|bucket| + 1] == bucket && p[|bucket| + 1] == '/' && p[|bucket| + 2..] == name
  {
    var p := GetUworkerIoGcsPath(bucket, name, existing).value;
    assert p == "/" + bucket + "/" + name;
    assert p[1..|bucket| + 1] == bucket;
    assert p[|bucket| + 2..] == name;
  }

  /** Different names give different paths in the same bucket. */
  lemma GcsPathInjective(bucket: string, name1: string, name2: string, existing: set<string>)
    requires GetUworkerIoGcsPath(bucket, name1, existing).Success?
    requires GetUworkerIoGcsPath(bucket, name2, existing).Success?
    requires name1 != name2
    ensures GetUworkerIoGcsPath(bucket, name1, existing).value != GetUworkerIoGcsPath(bucket, name2, existing).value
  {
    GcsPathParts(bucket, name1, existing);
    GcsPathParts(bucket, name2, existing);
  }

  /** The bucket `UWORKER_IO` and the name `new-filename` give `/UWORKER_IO/new-filename`. */
  lemma GcsPathExample()
    ensures GetUworkerIoGcsPath("UWORKER_IO", "new-filename", {}) == Success("/UWORKER_IO/new-filename")
  {
    assert "/" + "UWORKER_IO" + "/" + "new-filename" == "/UWORKER_IO/new-filename";
  }

  // ---------------------------------------------------------------------------
  // The dicts and their parts

  /**
   * A value of a handoff dict: plain Python data, an ndb entity (its key and
   * attributes), or an entity wrapped by `UworkerEntityWrapper` (the wrapped
   * entity's key and attributes, the change log among them).
   */
  datatype Item =
    | Plain(value: Value)
    | Model(key: Key, attrs: map<string, Value>)
    | Wrapped(key: Key, attrs: map<string, Value>)

  /** `base64.b64encode(key.serialized()).decode()` and its inverse, which fails on a malformed token. */
  datatype KeyCodec = KeyCodec(encode: Key -> string, decode: string -> Option<Key>)

  /** A faithful codec: decoding an encoded key gives the key back. */
  ghost predicate Inverse(codec: KeyCodec) {
    forall k :: codec.decode(codec.encode(k)) == Some(k)
  }

  /** Two maps with the same keys and the same value at each key are equal. */
  lemma SameMap<K, V>(a: map<K, V>, b: map<K, V>)
    requires forall k :: k in a <==> k in b
    requires forall k :: k in a ==> a[k] == b[k]
    ensures a == b
  {
  }

  /** The values of the plain items of a dict. */
  function PlainValues(m: map<string, Item>): (r: map<string, Value>)
    ensures forall k :: k in r <==> k in m && m[k].Plain?
    ensures forall k :: k in r ==> r[k] == m[k].value
  {
    map k | k in m && m[k].Plain? :: m[k].value
  }

  /** The document `{'serializable': ..., 'entities': ...}` as JSON decodes it. */
  function Document(plain: map<string, Value>, entities: map<string, Value>): Value {
    VDict(map["serializable" := VDict(plain), "entities" := VDict(entities)])
  }

  /** `d[field]` on a decoded JSON document. */
  function Field(d: Value, field: string): (r: Result<Value, Exc>)
    ensures r.Success? <==> d.VDict? && field in d.entries
    ensures r.Success? ==> r.value == d.entries[field]
    ensures !d.VDict? ==> r == Failure(TypeError)
    ensures d.VDict? && field !in d.entries ==> r == Failure(KeyError)
  {
    if !d.VDict? then Failure(TypeError)
    else if field !in d.entries then Failure(KeyError)
    else Success(d.entries[field])
  }

  /** `d.items()`: only a dict has them. */
  function Items(d: Value): (r: Result<map<string, Value>, Exc>)
    ensures r.Success? <==> d.VDict?
    ensures r.Success? ==> r.value == d.entries
    ensures r.Failure? ==> r.error == AttributeError
  {
    if d.VDict? then Success(d.entries) else Failure(AttributeError)
  }

  /** `ndb.Key(serialized=base64.b64decode(token))`: a string token decodes or is malformed. */
  function DecodeKey(codec: KeyCodec, token: Value): (r: Result<Key, Exc>)
    ensures !token.VStr? ==> r == Failure(TypeError)
    ensures token.VStr? && codec.decode(token.s).Some? ==> r == Success(codec.decode(token.s).value)
    ensures token.VStr? && codec.decode(token.s).None? ==> r == Failure(ValueError)
  {
    if !token.VStr? then Failure(TypeError)
    else match codec.decode(token.s)
      case Some(k) => Success(k)
      case None => Failure(ValueError)
  }

  /** `obj.to_dict()`: the entity's properties, without the wrapper's change log. */
  function ToDict(attrs: map<string, Value>): (r: map<string, Value>)
    ensures forall p :: p in r <==> p in attrs && p != ChangeLog
    ensures forall p :: p in r ==> r[p] == attrs[p]
  {
    map p | p in attrs && p != ChangeLog :: attrs[p]
  }

  /** The properties whose value is not a datetime. */
  function WithoutDatetimes(props: map<string, Value>): (r: map<string, Value>)
    ensures forall p :: p in r <==> p in props && !props[p].VDateTime?
    ensures forall p :: p in r ==> r[p] == props[p]
  {
    map p | p in props && !props[p].VDateTime? :: props[p]
  }

  /** The JSON object an input entity becomes: its key token and its properties. */
  function EntityRecord(codec: KeyCodec, key: Key, props: map<string, Value>): Value {
    VDict(map["key" := VStr(codec.encode(key)), "properties" := VDict(props)])
  }

  /** The JSON object an output wrapper becomes: its key token and its change log. */
  function ChangeRecord(codec: KeyCodec, key: Key, changed: Value): Value {
    VDict(map["key" := VStr(codec.encode(key)), "changed" := changed])
  }

  /**
   * `json.dumps({'serializable': serializable, 'entities': entities})`: a
   * wrapper, an ndb entity, a datetime or a key left in the document is not
   * JSON data and raises TypeError.
   */
  function Dumps(serializable: map<string, Item>, entities: map<string, Value>): (r: Result<Value, Exc>)
    ensures r.Success? <==>
              (forall k :: k in serializable ==> serializable[k].Plain? && JsonSafe(serializable[k].value)) &&
              (forall k :: k in entities ==> JsonSafe(entities[k]))
    ensures r.Failure? ==> r.error == TypeError
    ensures r.Success? ==> r.value == Document(PlainValues(serializable), entities)
  {
    if (forall k :: k in serializable ==> serializable[k].Plain? && JsonSafe(serializable[k].value)) &&
       (forall k :: k in entities ==> JsonSafe(entities[k]))
    then Success(Document(PlainValues(serializable), entities))
    else Failure(TypeError)
  }

  // ---------------------------------------------------------------------------
  // Input: serialise

  /** What `make_ndb_entity_input_obj_serializable` computes, for the loop below. */
  function EntityInput(codec: KeyCodec, key: Key, attrs: map<string, Value>): Value {
    EntityRecord(codec, key, WithoutDatetimes(ToDict(attrs)))
  }

  /**
   * `make_ndb_entity_input_obj_serializable(obj)`: the entity's properties
   * with every datetime-valued one deleted, next to its key token.
   */
  method MakeNdbEntityInputObjSerializable(codec: KeyCodec, key: Key, attrs: map<string, Value>) returns (r: Value)
    ensures r == EntityRecord(codec, key, WithoutDatetimes(ToDict(attrs)))
  {
    var objDict := ToDict(attrs);
    ghost var all := objDict;
    var keys := objDict.Keys;
    while keys != {}
      invariant keys <= all.Keys
      invariant forall p :: p in objDict <==> p in all && (p in keys || !all[p].VDateTime?)
      invariant forall p :: p in objDict ==> objDict[p] == all[p]
      decreases keys
    {
      var p :| p in keys;
      if objDict[p].VDateTime? {
        objDict := objDict - {p};
      }
      keys := keys - {p};
    }
    SameMap(objDict, WithoutDatetimes(all));
    r := EntityRecord(codec, key, objDict);
  }

  /** The values `serialize_uworker_input` keeps as they are: everything but ndb entities. */
  function InputSerializable(input: map<string, Item>): (r: map<string, Item>)
    ensures forall k :: k in r <==> k in input && !input[k].Model?
    ensures forall k :: k in r ==> r[k] == input[k]
  {
    map k | k in input && !input[k].Model? :: input[k]
  }

  /** The entities `serialize_uworker_input` turns into records. */
  function InputEntities(codec: KeyCodec, input: map<string, Item>): (r: map<string, Value>)
    ensures forall k :: k in r <==> k in input && input[k].Model?
    ensures forall k :: k in r ==> r[k] == EntityInput(codec, input[k].key, input[k].attrs)
  {
    map k | k in input && input[k].Model? :: EntityInput(codec, input[k].key, input[k].attrs)
  }

  /** What `serialize_uworker_input` produces. */
  function SerializeInput(codec: KeyCodec, input: map<string, Item>): (r: Result<Value, Exc>)
    ensures r.Failure? ==> r.error == TypeError
    ensures r.Success? ==> InputParts(r.value) == Success((PlainValues(input), InputEntities(codec, input)))
  {
    var r := Dumps(InputSerializable(input), InputEntities(codec, input));
    if r.Success? then
      PlainOfSerializable(input);
      DocumentParts(PlainValues(input), InputEntities(codec, input));
      r
    else r
  }

  /** Once every non-entity value is plain, the `serializable` part holds exactly the plain values. */
  lemma PlainOfSerializable(input: map<string, Item>)
    requires forall k :: k in InputSerializable(input) ==> InputSerializable(input)[k].Plain?
    ensures PlainValues(InputSerializable(input)) == PlainValues(input)
  {
    SameMap(PlainValues(InputSerializable(input)), PlainValues(input));
  }

  /** `serialize_uworker_input(uworker_input)`: entities to `entities`, every other value to `serializable`. */
  method SerializeUworkerInput(codec: KeyCodec, input: map<string, Item>) returns (r: Result<Value, Exc>)
    ensures r == SerializeInput(codec, input)
  {
    var serializable: map<string, Item> := map[];
    var ndbEntities: map<string, Value> := map[];
    var todo := input.Keys;
    while todo != {}
      invariant todo <= input.Keys
      invariant forall k :: k in serializable <==> k in input && k !in todo && !input[k].Model?
      invariant forall k :: k in serializable ==> serializable[k] == input[k]
      invariant forall k :: k in ndbEntities <==> k in input && k !in todo && input[k].Model?
      invariant forall k :: k in ndbEntities ==> ndbEntities[k] == EntityInput(codec, input[k].key, input[k].attrs)
      decreases todo
    {
      var k :| k in todo;
      var value := input[k];
      if !value.Model? {
        serializable := serializable[k := value];
      } else {
        var record := MakeNdbEntityInputObjSerializable(codec, value.key, value.attrs);
        ndbEntities := ndbEntities[k := record];
      }
      todo := todo - {k};
    }
    SameMap(serializable, InputSerializable(input));
    SameMap(ndbEntities, InputEntities(codec, input));
    r := Dumps(serializable, ndbEntities);
  }

  /**
   * Every key of the input lands in exactly one of the two parts: a
   * non-entity value unchanged in `serializable`, an entity as its record in
   * `entities`.
   */
  lemma InputPartition(codec: KeyCodec, input: map<string, Item>)
    ensures InputSerializable(input).Keys !! InputEntities(codec, input).Keys
    ensures InputSerializable(input).Keys + InputEntities(codec, input).Keys == input.Keys
    ensures forall k :: k in InputSerializable(input) ==> InputSerializable(input)[k] == input[k]
  {
  }

  /** The record of an entity keeps exactly its non-datetime properties, unchanged. */
  lemma EntityInputDropsDatetimes(codec: KeyCodec, key: Key, attrs: map<string, Value>)
    ensures Field(EntityInput(codec, key, attrs), "properties").Success?
    ensures var props := Field(EntityInput(codec, key, attrs), "properties").value;
            props.VDict? &&
            (forall p :: p in props.entries <==> p in attrs && p != ChangeLog && !attrs[p].VDateTime?) &&
            (forall p :: p in props.entries ==> props.entries[p] == attrs[p])
  {
  }

  // ---------------------------------------------------------------------------
  // Input: the remaining fields

  const JobTypeField: string := "job_type"
  const OutputUrlField: string := "uworker_output_upload_url"

  /**
   * The "add remaining fields" part of `serialize_and_upload_uworker_input`:
   * the dict afterwards, and whether an assertion failed. The first field is
   * added before the second is checked, so it stays when only that check fails.
   */
  function Augment(input: map<string, Item>, jobType: string, uploadUrl: string): (r: (map<string, Item>, Result<(), Exc>))
    ensures r.1.Success? <==> JobTypeField !in input && OutputUrlField !in input
    ensures r.1.Failure? ==> r.1.error == AssertionError
    ensures r.1.Success? ==> JobTypeField in r.0 && r.0[JobTypeField] == Plain(VStr(jobType))
    ensures r.1.Success? ==> OutputUrlField in r.0 && r.0[OutputUrlField] == Plain(VStr(uploadUrl))
    ensures r.1.Success? ==> r.0.Keys == input.Keys + {JobTypeField, OutputUrlField}
    ensures forall k :: k in input && k != JobTypeField && k != OutputUrlField ==> k in r.0 && r.0[k] == input[k]
    ensures JobTypeField in input ==> r.0 == input
    ensures JobTypeField !in input && OutputUrlField in input ==> r.0 == input[JobTypeField := Plain(VStr(jobType))]
  {
    if JobTypeField in input then (input, Failure(AssertionError))
    else
      var withJob := input[JobTypeField := Plain(VStr(jobType))];
      if OutputUrlField in withJob then (withJob, Failure(AssertionError))
      else (withJob[OutputUrlField := Plain(VStr(uploadUrl))], Success(()))
  }

  /** The dict `uworker_input` that preprocess builds and hands over, changed in place. */
  class UworkerInput {
    var items: map<string, Item>

    constructor (items: map<string, Item>)
      ensures this.items == items
    {
      this.items := items;
    }

    /** The two asserts and assignments that add `job_type` and the output URL. */
    method AddRemainingFields(jobType: string, uploadUrl: string) returns (r: Result<(), Exc>)
      modifies this
      ensures (items, r) == Augment(old(items), jobType, uploadUrl)
    {
      if JobTypeField in items {
        return Failure(AssertionError);
      }
      items := items[JobTypeField := Plain(VStr(jobType))];
      if OutputUrlField in items {
        return Failure(AssertionError);
      }
      items := items[OutputUrlField := Plain(VStr(uploadUrl))];
      return Success(());
    }

    /**
     * `serialize_and_upload_uworker_input(uworker_input, job_type, url)`:
     * the added fields, then the serialised payload that is uploaded.
     */
    method SerializeAndUpload(codec: KeyCodec, jobType: string, uploadUrl: string) returns (r: Result<Value, Exc>)
      modifies this
      ensures items == Augment(old(items), jobType, uploadUrl).0
      ensures Augment(old(items), jobType, uploadUrl).1.Failure? ==> r == Failure(AssertionError)
      ensures Augment(old(items), jobType, uploadUrl).1.Success? ==> r == SerializeInput(codec, items)
    {
      var added := AddRemainingFields(jobType, uploadUrl);
      if added.Failure? {
        return Failure(added.error);
      }
      r := SerializeUworkerInput(codec, items);
    }
  }

  // ---------------------------------------------------------------------------
  // Input: deserialise

  /**
   * `get_entity_with_changed_properties(key, properties)`: a fresh instance
   * of the model class named by the key's kind (`models` gives each class's
   * attributes with their defaults), with every listed property set. An
   * unknown kind, or properties that are not a dict, raise AttributeError; a
   * property the class does not have fails the assertion.
   */
  function EntityWithChangedProperties(models: map<string, map<string, Value>>, key: Key, properties: Value): (r: Result<map<string, Value>, Exc>)
    ensures r.Success? <==> key.kind in models && properties.VDict? && properties.entries.Keys <= models[key.kind].Keys
    ensures r.Success? ==> r.value.Keys == models[key.kind].Keys
    ensures r.Success? ==> forall p :: p in properties.entries ==> r.value[p] == properties.entries[p]
    ensures r.Success? ==> forall p :: p in r.value && p !in properties.entries ==> r.value[p] == models[key.kind][p]
    ensures r.Failure? && (key.kind !in models || !properties.VDict?) ==> r.error == AttributeError
    ensures r.Failure? && key.kind in models && properties.VDict? ==> r.error == AssertionError
  {
    if key.kind !in models || !properties.VDict? then Failure(AttributeError)
    else if !(properties.entries.Keys <= models[key.kind].Keys) then Failure(AssertionError)
    else Success(models[key.kind] + properties.entries)
  }

  /** The loop of `get_entity_with_changed_properties`: check each property, then set it. */
  method GetEntityWithChangedProperties(models: map<string, map<string, Value>>, key: Key, properties: Value)
    returns (r: Result<map<string, Value>, Exc>)
    ensures r == EntityWithChangedProperties(models, key, properties)
  {
    if key.kind !in models || !properties.VDict? {
      return Failure(AttributeError);
    }
    var defaults := models[key.kind];
    var props := properties.entries;
    var attrs := defaults;
    var todo := props.Keys;
    while todo != {}
      invariant todo <= props.Keys
      invariant forall p :: p in props && p !in todo ==> p in defaults
      invariant attrs.Keys == defaults.Keys
      invariant forall p :: p in props && p !in todo ==> attrs[p] == props[p]
      invariant forall p :: p in defaults && (p !in props || p in todo) ==> attrs[p] == defaults[p]
      decreases todo
    {
      var p :| p in todo;
      if p !in attrs {
        return Failure(AssertionError);
      }
      attrs := attrs[p := props[p]];
      todo := todo - {p};
    }
    SameMap(attrs, defaults + props);
    return Success(attrs);
  }

  /** What one entry of `entities` becomes on the uworker: a wrapper around the rebuilt entity. */
  function DecodeInputEntity(codec: KeyCodec, models: map<string, map<string, Value>>, entityDict: Value): (r: Result<Item, Exc>)
    ensures r.Success? ==> r.value.Wrapped? && Field(entityDict, "key").Success? &&
                           DecodeKey(codec, Field(entityDict, "key").value) == Success(r.value.key)
    ensures r.Success? ==> LogUsable(r.value.attrs)
  {
    var token :- Field(entityDict, "key");
    var key :- DecodeKey(codec, token);
    var properties :- Field(entityDict, "properties");
    var attrs :- EntityWithChangedProperties(models, key, properties);
    Success(Wrapped(key, InitLog(attrs)))
  }

  /** The `serializable` and `entities` parts of a decoded input document. */
  function InputParts(doc: Value): (r: Result<(map<string, Value>, map<string, Value>), Exc>)
    ensures r.Success? ==> doc.VDict? &&
                           Field(doc, "serializable") == Success(VDict(r.value.0)) &&
                           Field(doc, "entities") == Success(VDict(r.value.1))
    ensures r.Failure? <==> !(doc.VDict? && "serializable" in doc.entries && "entities" in doc.entries &&
                              doc.entries["serializable"].VDict? && doc.entries["entities"].VDict?)
  {
    var serializable :- Field(doc, "serializable");
    var entities :- Field(doc, "entities");
    var entityDicts :- Items(entities);
    var plain :- if serializable.VDict? then Success(serializable.entries) else Failure(TypeError);
    Success((plain, entityDicts))
  }

  /** The document deserialises: its parts are there and every entity in it decodes. */
  predicate InputDecodes(codec: KeyCodec, models: map<string, map<string, Value>>, doc: Value) {
    InputParts(doc).Success? && AllInputEntitiesDecode(codec, models, InputParts(doc).value.1)
  }

  /** Every entity of the `entities` part decodes. */
  predicate AllInputEntitiesDecode(codec: KeyCodec, models: map<string, map<string, Value>>, entities: map<string, Value>) {
    forall n :: n in entities ==> DecodeInputEntity(codec, models, entities[n]).Success?
  }

  /** The wrapper each entity of the `entities` part decodes to. */
  function DecodedInputEntities(codec: KeyCodec, models: map<string, map<string, Value>>, entities: map<string, Value>): map<string, Item>
    requires AllInputEntitiesDecode(codec, models, entities)
  {
    map n | n in entities :: DecodeInputEntity(codec, models, entities[n]).value
  }

  /** The plain values, overridden by the decoded entities: the dict a deserialiser returns. */
  function Merge(plain: map<string, Value>, decoded: map<string, Item>): (r: map<string, Item>)
    ensures forall k :: k in r <==> k in plain || k in decoded
    ensures forall k :: k in decoded ==> r[k] == decoded[k]
    ensures forall k :: k in plain && k !in decoded ==> r[k] == Plain(plain[k])
  {
    (map k | k in plain :: Plain(plain[k])) + decoded
  }

  /** Setting one more decoded item sets it in the merged dict. */
  lemma MergeUpdate(plain: map<string, Value>, decoded: map<string, Item>, name: string, w: Item)
    ensures Merge(plain, decoded[name := w]) == Merge(plain, decoded)[name := w]
  {
    SameMap(Merge(plain, decoded[name := w]), Merge(plain, decoded)[name := w]);
  }

  /** The dict `deserialize_uworker_input` returns for a document that deserialises. */
  function RebuiltInput(codec: KeyCodec, models: map<string, map<string, Value>>, doc: Value): map<string, Item>
    requires InputDecodes(codec, models, doc)
  {
    var (plain, entities) := InputParts(doc).value;
    Merge(plain, DecodedInputEntities(codec, models, entities))
  }

  /**
   * The exceptions deserialising can end with: the one from the document's
   * shape, or else the one of any entity that does not decode (which comes
   * first depends on the dict's order).
   */
  function InputErrors(codec: KeyCodec, models: map<string, map<string, Value>>, doc: Value): set<Exc> {
    if InputParts(doc).Failure? then {InputParts(doc).error}
    else
      var entities := InputParts(doc).value.1;
      set n | n in entities && DecodeInputEntity(codec, models, entities[n]).Failure? :: DecodeInputEntity(codec, models, entities[n]).error
  }

  /** `deserialize_uworker_input(payload)`: the plain values, and a wrapper for each entity. */
  method DeserializeUworkerInput(codec: KeyCodec, models: map<string, map<string, Value>>, doc: Value)
    returns (r: Result<map<string, Item>, Exc>)
    ensures r.Success? <==> InputDecodes(codec, models, doc)
    ensures r.Success? ==> r.value == RebuiltInput(codec, models, doc)
    ensures r.Failure? ==> r.error in InputErrors(codec, models, doc)
  {
    var parts := InputParts(doc);
    if parts.Failure? {
      return Failure(parts.error);
    }
    var (plain, entities) := parts.value;
    assert InputParts(doc).value == (plain, entities);
    var input: map<string, Item> := map k | k in plain :: Plain(plain[k]);
    var todo := entities.Keys;
    ghost var done: map<string, Value> := map[];
    SameMap(input, Merge(plain, DecodedInputEntities(codec, models, done)));
    while todo != {}
      invariant todo <= entities.Keys
      invariant forall n :: n in done <==> n in entities && n !in todo
      invariant forall n :: n in done ==> done[n] == entities[n]
      invariant AllInputEntitiesDecode(codec, models, done)
      invariant input == Merge(plain, DecodedInputEntities(codec, models, done))
      decreases todo
    {
      var name :| name in todo;
      var item := DecodeEntityStep(codec, models, entities[name]);
      if item.Failure? {
        InputErrorOf(codec, models, doc, name);
        return Failure(item.error);
      }
      DecodedInputStep(codec, models, plain, done, name, entities[name]);
      input := input[name := item.value];
      done := done[name := entities[name]];
      todo := todo - {name};
    }
    SameMap(done, entities);
    return Success(input);
  }

  /** An entity that does not decode makes its exception a possible one, and the document not deserialise. */
  lemma InputErrorOf(codec: KeyCodec, models: map<string, map<string, Value>>, doc: Value, name: string)
    requires InputParts(doc).Success? && name in InputParts(doc).value.1
    requires DecodeInputEntity(codec, models, InputParts(doc).value.1[name]).Failure?
    ensures DecodeInputEntity(codec, models, InputParts(doc).value.1[name]).error in InputErrors(codec, models, doc)
    ensures !InputDecodes(codec, models, doc)
  {
  }

  /** Decoding one more entity sets its wrapper in the merged dict. */
  lemma DecodedInputStep(codec: KeyCodec, models: map<string, map<string, Value>>, plain: map<string, Value>,
                         done: map<string, Value>, name: string, v: Value)
    requires AllInputEntitiesDecode(codec, models, done) && DecodeInputEntity(codec, models, v).Success?
    ensures AllInputEntitiesDecode(codec, models, done[name := v])
    ensures Merge(plain, DecodedInputEntities(codec, models, done[name := v])) ==
            Merge(plain, DecodedInputEntities(codec, models, done))[name := DecodeInputEntity(codec, models, v).value]
  {
    var after := done[name := v];
    var w := DecodeInputEntity(codec, models, v).value;
    assert AllInputEntitiesDecode(codec, models, after);
    SameMap(DecodedInputEntities(codec, models, after), DecodedInputEntities(codec, models, done)[name := w]);
    MergeUpdate(plain, DecodedInputEntities(codec, models, done), name, w);
  }

  /** The body of the loop of `deserialize_uworker_input`, for one entity. */
  method DecodeEntityStep(codec: KeyCodec, models: map<string, map<string, Value>>, entityDict: Value)
    returns (r: Result<Item, Exc>)
    ensures r == DecodeInputEntity(codec, models, entityDict)
  {
    var token := Field(entityDict, "key");
    if token.Failure? {
      return Failure(token.error);
    }
    var key := DecodeKey(codec, token.value);
    if key.Failure? {
      return Failure(key.error);
    }
    var properties := Field(entityDict, "properties");
    if properties.Failure? {
      return Failure(properties.error);
    }
    var entity := GetEntityWithChangedProperties(models, key.value, properties.value);
    if entity.Failure? {
      return Failure(entity.error);
    }
    return Success(Wrapped(key.value, InitLog(entity.value)));
  }

  // ---------------------------------------------------------------------------
  // Input: the round trip

  /**
   * An input item the trusted side can hand over: JSON data, or an entity of
   * a known model whose non-datetime properties are JSON data.
   */
  predicate Transferable(models: map<string, map<string, Value>>, item: Item) {
    match item
    case Plain(v) => JsonSafe(v)
    case Model(key, attrs) =>
      key.kind in models &&
      AllJsonSafe(WithoutDatetimes(ToDict(attrs))) &&
      WithoutDatetimes(ToDict(attrs)).Keys <= models[key.kind].Keys
    case Wrapped(_, _) => false
  }

  /** What the uworker receives for an item it was handed. */
  function Received(models: map<string, map<string, Value>>, item: Item): Item
    requires Transferable(models, item)
  {
    match item
    case Plain(v) => Plain(v)
    case Model(key, attrs) => Wrapped(key, InitLog(models[key.kind] + WithoutDatetimes(ToDict(attrs))))
  }

  /** One entity's record decodes to the wrapped entity with its key and recorded properties. */
  lemma EntityRecordDecodes(codec: KeyCodec, models: map<string, map<string, Value>>, item: Item)
    requires Inverse(codec) && item.Model? && Transferable(models, item)
    ensures DecodeInputEntity(codec, models, EntityInput(codec, item.key, item.attrs)) == Success(Received(models, item))
  {
    var props := WithoutDatetimes(ToDict(item.attrs));
    var record := EntityInput(codec, item.key, item.attrs);
    assert codec.decode(codec.encode(item.key)) == Some(item.key);
    assert Field(record, "key") == Success(VStr(codec.encode(item.key)));
    assert Field(record, "properties") == Success(VDict(props));
    assert EntityWithChangedProperties(models, item.key, VDict(props)) == Success(models[item.key.kind] + props);
  }

  /** Every entity record of a transferable input decodes. */
  lemma InputEntitiesDecode(codec: KeyCodec, models: map<string, map<string, Value>>, input: map<string, Item>)
    requires Inverse(codec)
    requires forall k :: k in input ==> Transferable(models, input[k])
    ensures forall n :: n in InputEntities(codec, input) ==>
              DecodeInputEntity(codec, models, InputEntities(codec, input)[n]) == Success(Received(models, input[n]))
  {
    forall n | n in InputEntities(codec, input)
      ensures DecodeInputEntity(codec, models, InputEntities(codec, input)[n]) == Success(Received(models, input[n]))
    {
      EntityRecordDecodes(codec, models, input[n]);
    }
  }

  /**
   * Deserialising serialised input gives back every plain value unchanged,
   * and for each entity a wrapper around an entity with the same key and
   * the recorded properties (the model's defaults elsewhere).
   */
  lemma InputRoundTrip(codec: KeyCodec, models: map<string, map<string, Value>>, input: map<string, Item>)
    requires Inverse(codec)
    requires forall k :: k in input ==> Transferable(models, input[k])
    ensures SerializeInput(codec, input).Success?
    ensures InputDecodes(codec, models, SerializeInput(codec, input).value)
    ensures RebuiltInput(codec, models, SerializeInput(codec, input).value) ==
            map k | k in input :: Received(models, input[k])
  {
    InputSerializes(codec, models, input);
    var plain, entities := PlainValues(input), InputEntities(codec, input);
    var doc := Document(plain, entities);
    DocumentParts(plain, entities);
    InputEntitiesDecode(codec, models, input);
    assert AllInputEntitiesDecode(codec, models, entities);
    var decoded := DecodedInputEntities(codec, models, entities);
    var rebuilt := Merge(plain, decoded);
    assert RebuiltInput(codec, models, doc) == rebuilt;
    var expected := map k | k in input :: Received(models, input[k]);
    forall k | k in rebuilt
      ensures k in expected && rebuilt[k] == expected[k]
    {
      if k in decoded {
        assert rebuilt[k] == DecodeInputEntity(codec, models, entities[k]).value;
      } else {
        assert input[k].Plain?;
      }
    }
    SameMap(rebuilt, expected);
  }

  /** The JSON document of a transferable input: its plain values and its entity records. */
  lemma InputSerializes(codec: KeyCodec, models: map<string, map<string, Value>>, input: map<string, Item>)
    requires forall k :: k in input ==> Transferable(models, input[k])
    ensures SerializeInput(codec, input) == Success(Document(PlainValues(input), InputEntities(codec, input)))
  {
    var serializable, entities := InputSerializable(input), InputEntities(codec, input);
    forall k | k in entities
      ensures JsonSafe(entities[k])
    {
      RecordJsonSafe(codec.encode(input[k].key), "properties", VDict(WithoutDatetimes(ToDict(input[k].attrs))));
    }
    SameMap(PlainValues(serializable), PlainValues(input));
  }

  /** A two-field record of JSON data is JSON data. */
  lemma RecordJsonSafe(token: string, field: string, v: Value)
    requires JsonSafe(v)
    ensures JsonSafe(VDict(map["key" := VStr(token), field := v]))
  {
    var m := map["key" := VStr(token), field := v];
    forall k | k in m
      ensures JsonSafe(m[k])
    {
      if k != field {
        assert m[k] == VStr(token);
      }
    }
  }

  /** Reading a document back gives the two parts it was made of. */
  lemma DocumentParts(plain: map<string, Value>, entities: map<string, Value>)
    ensures InputParts(Document(plain, entities)) == Success((plain, entities))
  {
    var doc := Document(plain, entities);
    assert Field(doc, "serializable") == Success(VDict(plain));
    assert Field(doc, "entities") == Success(VDict(entities));
  }

  // ---------------------------------------------------------------------------
  // Output: serialise

  /** The values `serialize_uworker_output` keeps as they are: everything but wrappers. */
  function OutputSerializable(output: map<string, Item>): (r: map<string, Item>)
    ensures forall k :: k in r <==> k in output && !output[k].Wrapped?
    ensures forall k :: k in r ==> r[k] == output[k]
  {
    map k | k in output && !output[k].Wrapped? :: output[k]
  }

  /** The wrappers, each as its key token and its change log; every wrapper needs a log. */
  function OutputEntities(codec: KeyCodec, output: map<string, Item>): (r: map<string, Value>)
    requires forall k :: k in output && output[k].Wrapped? ==> ChangeLog in output[k].attrs
    ensures forall k :: k in r <==> k in output && output[k].Wrapped?
    ensures forall k :: k in r ==> r[k] == ChangeRecord(codec, output[k].key, output[k].attrs[ChangeLog])
  {
    map k | k in output && output[k].Wrapped? :: ChangeRecord(codec, output[k].key, output[k].attrs[ChangeLog])
  }

  /** Some wrapper of the output has no change log: reading it raises AttributeError. */
  predicate LogMissing(output: map<string, Item>) {
    exists k :: k in output && output[k].Wrapped? && ChangeLog !in output[k].attrs
  }

  /** What `serialize_uworker_output` produces. */
  function SerializeOutput(codec: KeyCodec, output: map<string, Item>): (r: Result<Value, Exc>)
    ensures LogMissing(output) ==> r == Failure(AttributeError)
  {
    if LogMissing(output) then Failure(AttributeError)
    else Dumps(OutputSerializable(output), OutputEntities(codec, output))
  }

  /** `serialize_uworker_output(uworker_output)`: wrappers to `entities` with their changes, the rest as it is. */
  method SerializeUworkerOutput(codec: KeyCodec, output: map<string, Item>) returns (r: Result<Value, Exc>)
    ensures r == SerializeOutput(codec, output)
  {
    var entities: map<string, Value> := map[];
    var serializable: map<string, Item> := map[];
    var todo := output.Keys;
    while todo != {}
      invariant todo <= output.Keys
      invariant forall k :: k in output && k !in todo && output[k].Wrapped? ==> ChangeLog in output[k].attrs
      invariant forall k :: k in serializable <==> k in output && k !in todo && !output[k].Wrapped?
      invariant forall k :: k in serializable ==> serializable[k] == output[k]
      invariant forall k :: k in entities <==> k in output && k !in todo && output[k].Wrapped?
      invariant forall k :: k in entities ==> entities[k] == ChangeRecord(codec, output[k].key, output[k].attrs[ChangeLog])
      decreases todo
    {
      var name :| name in todo;
      var value := output[name];
      if !value.Wrapped? {
        serializable := serializable[name := value];
      } else {
        var changed := GetAttr(value.attrs, ChangeLog);
        if changed.Failure? {
          assert name in output && output[name].Wrapped? && ChangeLog !in output[name].attrs;
          return Failure(changed.error);
        }
        entities := entities[name := ChangeRecord(codec, value.key, changed.value)];
      }
      todo := todo - {name};
    }
    assert !LogMissing(output);
    SameMap(serializable, OutputSerializable(output));
    SameMap(entities, OutputEntities(codec, output));
    r := Dumps(serializable, entities);
  }

  // ---------------------------------------------------------------------------
  // Output: deserialise

  /**
   * One entry of `entities` on the trusted side: the key's entity is fetched
   * from the datastore (`None` when there is none) and every recorded change
   * is set on it. A change to a missing entity raises AttributeError.
   */
  function DecodeOutputEntity(codec: KeyCodec, datastore: map<Key, map<string, Value>>, entityDict: Value): (r: Result<Item, Exc>)
    ensures r.Success? ==> r.value.Model? || r.value == Plain(VNone)
    ensures r.Success? && r.value.Model? ==> r.value.key in datastore && datastore[r.value.key].Keys <= r.value.attrs.Keys
    ensures r.Success? ==> Field(entityDict, "key").Success? &&
                           DecodeKey(codec, Field(entityDict, "key").value).Success?
    ensures r.Success? && r.value.Model? ==> DecodeKey(codec, Field(entityDict, "key").value) == Success(r.value.key)
  {
    var token :- Field(entityDict, "key");
    var key :- DecodeKey(codec, token);
    var changedValue :- Field(entityDict, "changed");
    var changed :- Items(changedValue);
    if key !in datastore then
      if changed == map[] then Success(Plain(VNone)) else Failure(AttributeError)
    else Success(Model(key, datastore[key] + changed))
  }

  /** The output document deserialises: its parts are there and every entity in it decodes. */
  predicate OutputDecodes(codec: KeyCodec, datastore: map<Key, map<string, Value>>, doc: Value) {
    OutputParts(doc).Success? && AllOutputEntitiesDecode(codec, datastore, OutputParts(doc).value.1)
  }

  /** Every entity of the `entities` part decodes. */
  predicate AllOutputEntitiesDecode(codec: KeyCodec, datastore: map<Key, map<string, Value>>, entities: map<string, Value>) {
    forall n :: n in entities ==> DecodeOutputEntity(codec, datastore, entities[n]).Success?
  }

  /** The updated entity each record of the `entities` part decodes to. */
  function DecodedOutputEntities(codec: KeyCodec, datastore: map<Key, map<string, Value>>, entities: map<string, Value>): map<string, Item>
    requires AllOutputEntitiesDecode(codec, datastore, entities)
  {
    map n | n in entities :: DecodeOutputEntity(codec, datastore, entities[n]).value
  }

  /** The `serializable` and `entities` parts of a decoded output document. */
  function OutputParts(doc: Value): Result<(map<string, Value>, map<string, Value>), Exc> {
    InputParts(doc)
  }

  /** The dict `deserialize_uworker_output` returns for a document that deserialises. */
  function RebuiltOutput(codec: KeyCodec, datastore: map<Key, map<string, Value>>, doc: Value): map<string, Item>
    requires OutputDecodes(codec, datastore, doc)
  {
    var (plain, entities) := OutputParts(doc).value;
    Merge(plain, DecodedOutputEntities(codec, datastore, entities))
  }

  /** The exceptions deserialising output can end with, as for input. */
  function OutputErrors(codec: KeyCodec, datastore: map<Key, map<string, Value>>, doc: Value): set<Exc> {
    if OutputParts(doc).Failure? then {OutputParts(doc).error}
    else
      var entities := OutputParts(doc).value.1;
      set n | n in entities && DecodeOutputEntity(codec, datastore, entities[n]).Failure? :: DecodeOutputEntity(codec, datastore, entities[n]).error
  }

  /** The inner loop of `deserialize_uworker_output`: `setattr(entity, attr, new_value)` for each change. */
  method ApplyChanges(attrs: map<string, Value>, changed: map<string, Value>) returns (r: map<string, Value>)
    ensures r.Keys == attrs.Keys + changed.Keys
    ensures forall a :: a in changed ==> r[a] == changed[a]
    ensures forall a :: a in attrs && a !in changed ==> r[a] == attrs[a]
  {
    r := attrs;
    var todo := changed.Keys;
    while todo != {}
      invariant todo <= changed.Keys
      invariant r == attrs + map a | a in changed && a !in todo :: changed[a]
      decreases todo
    {
      var a :| a in todo;
      r := r[a := changed[a]];
      todo := todo - {a};
    }
  }

  /** The body of the loop of `deserialize_uworker_output`, for one entity. */
  method DecodeOutputStep(codec: KeyCodec, datastore: map<Key, map<string, Value>>, entityDict: Value)
    returns (r: Result<Item, Exc>)
    ensures r == DecodeOutputEntity(codec, datastore, entityDict)
  {
    var token := Field(entityDict, "key");
    if token.Failure? {
      return Failure(token.error);
    }
    var key := DecodeKey(codec, token.value);
    if key.Failure? {
      return Failure(key.error);
    }
    var changedValue := Field(entityDict, "changed");
    if changedValue.Failure? {
      return Failure(changedValue.error);
    }
    var changed := Items(changedValue.value);
    if changed.Failure? {
      return Failure(changed.error);
    }
    if key.value !in datastore {
      if changed.value != map[] {
        return Failure(AttributeError);
      }
      return Success(Plain(VNone));
    }
    var attrs := ApplyChanges(datastore[key.value], changed.value);
    assert attrs == datastore[key.value] + changed.value;
    return Success(Model(key.value, attrs));
  }

  /** `deserialize_uworker_output(payload)`: the plain values, and each changed entity with its changes applied. */
  method DeserializeUworkerOutput(codec: KeyCodec, datastore: map<Key, map<string, Value>>, doc: Value)
    returns (r: Result<map<string, Item>, Exc>)
    ensures r.Success? <==> OutputDecodes(codec, datastore, doc)
    ensures r.Success? ==> r.value == RebuiltOutput(codec, datastore, doc)
    ensures r.Failure? ==> r.error in OutputErrors(codec, datastore, doc)
  {
    var parts := OutputParts(doc);
    if parts.Failure? {
      return Failure(parts.error);
    }
    var (plain, entities) := parts.value;
    assert OutputParts(doc).value == (plain, entities);
    var output: map<string, Item> := map k | k in plain :: Plain(plain[k]);
    var todo := entities.Keys;
    ghost var done: map<string, Value> := map[];
    SameMap(output, Merge(plain, DecodedOutputEntities(codec, datastore, done)));
    while todo != {}
      invariant todo <= entities.Keys
      invariant forall n :: n in done <==> n in entities && n !in todo
      invariant forall n :: n in done ==> done[n] == entities[n]
      invariant AllOutputEntitiesDecode(codec, datastore, done)
      invariant output == Merge(plain, DecodedOutputEntities(codec, datastore, done))
      decreases todo
    {
      var name :| name in todo;
      var item := DecodeOutputStep(codec, datastore, entities[name]);
      if item.Failure? {
        OutputErrorOf(codec, datastore, doc, name);
        return Failure(item.error);
      }
      DecodedOutputStep(codec, datastore, plain, done, name, entities[name]);
      output := output[name := item.value];
      done := done[name := entities[name]];
      todo := todo - {name};
    }
    SameMap(done, entities);
    return Success(output);
  }

  /** An entry that does not decode makes its exception a possible one, and the document not deserialise. */
  lemma OutputErrorOf(codec: KeyCodec, datastore: map<Key, map<string, Value>>, doc: Value, name: string)
    requires OutputParts(doc).Success? && name in OutputParts(doc).value.1
    requires DecodeOutputEntity(codec, datastore, OutputParts(doc).value.1[name]).Failure?
    ensures DecodeOutputEntity(codec, datastore, OutputParts(doc).value.1[name]).error in OutputErrors(codec, datastore, doc)
    ensures !OutputDecodes(codec, datastore, doc)
  {
  }

  /** Decoding one more entry sets its entity in the merged dict. */
  lemma DecodedOutputStep(codec: KeyCodec, datastore: map<Key, map<string, Value>>, plain: map<string, Value>,
                          done: map<string, Value>, name: string, v: Value)
    requires AllOutputEntitiesDecode(codec, datastore, done) && DecodeOutputEntity(codec, datastore, v).Success?
    ensures AllOutputEntitiesDecode(codec, datastore, done[name := v])
    ensures Merge(plain, DecodedOutputEntities(codec, datastore, done[name := v])) ==
            Merge(plain, DecodedOutputEntities(codec, datastore, done))[name := DecodeOutputEntity(codec, datastore, v).value]
  {
    var after := done[name := v];
    var w := DecodeOutputEntity(codec, datastore, v).value;
    assert AllOutputEntitiesDecode(codec, datastore, after);
    SameMap(DecodedOutputEntities(codec, datastore, after), DecodedOutputEntities(codec, datastore, done)[name := w]);
    MergeUpdate(plain, DecodedOutputEntities(codec, datastore, done), name, w);
  }

  // ---------------------------------------------------------------------------
  // Output: the round trip

  /**
   * An output item the uworker can hand back: JSON data, or a wrapper whose
   * change log is a dict of JSON data, around an entity the datastore holds.
   */
  predicate Returnable(datastore: map<Key, map<string, Value>>, item: Item) {
    match item
    case Plain(v) => JsonSafe(v)
    case Model(_, _) => false
    case Wrapped(key, attrs) =>
      key in datastore && ChangeLog in attrs && attrs[ChangeLog].VDict? && AllJsonSafe(attrs[ChangeLog].entries)
  }

  /** What postprocess receives for an item the uworker returned. */
  function Applied(datastore: map<Key, map<string, Value>>, item: Item): Item
    requires Returnable(datastore, item)
  {
    match item
    case Plain(v) => Plain(v)
    case Wrapped(key, attrs) => Model(key, datastore[key] + attrs[ChangeLog].entries)
  }

  /** One wrapper's record decodes to the stored entity with the recorded changes applied. */
  lemma ChangeRecordDecodes(codec: KeyCodec, datastore: map<Key, map<string, Value>>, item: Item)
    requires Inverse(codec) && item.Wrapped? && Returnable(datastore, item)
    ensures DecodeOutputEntity(codec, datastore, ChangeRecord(codec, item.key, item.attrs[ChangeLog])) == Success(Applied(datastore, item))
  {
    var record := ChangeRecord(codec, item.key, item.attrs[ChangeLog]);
    assert codec.decode(codec.encode(item.key)) == Some(item.key);
    assert Field(record, "key") == Success(VStr(codec.encode(item.key)));
    assert Field(record, "changed") == Success(item.attrs[ChangeLog]);
  }

  /**
   * Deserialising serialised output gives back every plain value unchanged
   * and, for each wrapper, the stored entity with every recorded change set.
   */
  lemma OutputRoundTrip(codec: KeyCodec, datastore: map<Key, map<string, Value>>, output: map<string, Item>)
    requires Inverse(codec)
    requires forall k :: k in output ==> Returnable(datastore, output[k])
    ensures SerializeOutput(codec, output).Success?
    ensures OutputDecodes(codec, datastore, SerializeOutput(codec, output).value)
    ensures RebuiltOutput(codec, datastore, SerializeOutput(codec, output).value) ==
            map k | k in output :: Applied(datastore, output[k])
  {
    OutputSerializes(codec, datastore, output);
    var plain, entities := PlainValues(output), OutputEntities(codec, output);
    var doc := Document(plain, entities);
    DocumentParts(plain, entities);
    forall n | n in entities
      ensures DecodeOutputEntity(codec, datastore, entities[n]) == Success(Applied(datastore, output[n]))
    {
      ChangeRecordDecodes(codec, datastore, output[n]);
    }
    var rebuilt := RebuiltOutput(codec, datastore, doc);
    SameMap(rebuilt, map k | k in output :: Applied(datastore, output[k]));
  }

  /** The JSON document of a returnable output: its plain values and its change records. */
  lemma OutputSerializes(codec: KeyCodec, datastore: map<Key, map<string, Value>>, output: map<string, Item>)
    requires forall k :: k in output ==> Returnable(datastore, output[k])
    ensures !LogMissing(output)
    ensures SerializeOutput(codec, output) == Success(Document(PlainValues(output), OutputEntities(codec, output)))
  {
    var serializable, entities := OutputSerializable(output), OutputEntities(codec, output);
    forall k | k in entities
      ensures JsonSafe(entities[k])
    {
      assert JsonSafe(output[k].attrs[ChangeLog]);
      RecordJsonSafe(codec.encode(output[k].key), "changed", output[k].attrs[ChangeLog]);
    }
    SameMap(PlainValues(serializable), PlainValues(output));
  }

  /**
   * The whole handoff for one entity: handed to the uworker, written through
   * its wrapper, returned and applied on the trusted side: the stored entity
   * with each attribute written set to its last written value, and every
   * other stored attribute as it was.
   */
  lemma WritesReachTrustedSide(codec: KeyCodec, datastore: map<Key, map<string, Value>>, name: string,
                               key: Key, received: map<string, Value>, writes: seq<(string, Value)>)
    requires Inverse(codec) && key in datastore && ChangeLog !in received
    requires forall i :: 0 <= i < |writes| ==> writes[i].0 != ChangeLog && JsonSafe(writes[i].1)
    ensures Replay(InitLog(received), writes).Success?
    ensures var returned := map[name := Wrapped(key, Replay(InitLog(received), writes).value)];
            SerializeOutput(codec, returned).Success? &&
            OutputDecodes(codec, datastore, SerializeOutput(codec, returned).value) &&
            RebuiltOutput(codec, datastore, SerializeOutput(codec, returned).value) ==
              map[name := Model(key, datastore[key] + LastWrites(writes))]
  {
    LogIsLastWrites(received, writes);
    LastWritesJsonSafe(writes);
    var attrs := Replay(InitLog(received), writes).value;
    assert attrs[ChangeLog] == VDict(LastWrites(writes));
    WrapperRoundTrip(codec, datastore, name, key, attrs);
  }

  /** An output holding one wrapper of a stored entity gives back that entity with its log applied. */
  lemma WrapperRoundTrip(codec: KeyCodec, datastore: map<Key, map<string, Value>>, name: string,
                         key: Key, attrs: map<string, Value>)
    requires Inverse(codec) && key in datastore
    requires ChangeLog in attrs && attrs[ChangeLog].VDict? && AllJsonSafe(attrs[ChangeLog].entries)
    ensures var returned := map[name := Wrapped(key, attrs)];
            SerializeOutput(codec, returned).Success? &&
            OutputDecodes(codec, datastore, SerializeOutput(codec, returned).value) &&
            RebuiltOutput(codec, datastore, SerializeOutput(codec, returned).value) ==
              map[name := Model(key, datastore[key] + attrs[ChangeLog].entries)]
  {
    var returned := map[name := Wrapped(key, attrs)];
    assert Returnable(datastore, returned[name]);
    OutputRoundTrip(codec, datastore, returned);
    SameMap(map k | k in returned :: Applied(datastore, returned[k]), map[name := Model(key, datastore[key] + attrs[ChangeLog].entries)]);
  }

  /** Writing only JSON data leaves only JSON data in the log. */
  lemma LastWritesJsonSafe(writes: seq<(string, Value)>)
    requires forall i :: 0 <= i < |writes| ==> JsonSafe(writes[i].1)
    ensures AllJsonSafe(LastWrites(writes))
  {
    forall a | a in LastWrites(writes)
      ensures JsonSafe(LastWrites(writes)[a])
    {
      LastWritesValue(writes, a);
    }
  }

  /** The last write of an attribute is one of its writes. */
  lemma {:induction false} LastWritesValue(writes: seq<(string, Value)>, a: string)
    requires a in LastWrites(writes)
    ensures exists i :: 0 <= i < |writes| && writes[i] == (a, LastWrites(writes)[a])
  {
    if a in LastWrites(writes[1..]) {
      LastWritesValue(writes[1..], a);
      var i :| 0 <= i < |writes[1..]| && writes[1..][i] == (a, LastWrites(writes[1..])[a]);
      assert writes[i + 1] == writes[1..][i];
    } else {
      assert writes[0] == (a, LastWrites(writes)[a]);
    }
  }

  // ---------------------------------------------------------------------------
  // The unwritten wrapper

  /**
   * As written, a wrapper nothing was written through has no change log, so
   * an output holding it cannot be serialised: AttributeError where `{}`
   * was meant.
   */
  lemma UnwrittenWrapperBreaksOutput(codec: KeyCodec, name: string, key: Key, attrs: map<string, Value>)
    requires ChangeLog !in attrs
    ensures SerializeOutput(codec, map[name := Wrapped(key, attrs)]) == Failure(AttributeError)
  {
    var output := map[name := Wrapped(key, attrs)];
    assert name in output && output[name].Wrapped? && ChangeLog !in output[name].attrs;
    assert LogMissing(output);
  }

  /**
   * Corrected, the wrapper starts with an empty log: an unwritten wrapper of
   * a stored entity round-trips as the stored entity, unchanged.
   */
  lemma UnwrittenWrapperRoundTrips(codec: KeyCodec, datastore: map<Key, map<string, Value>>, name: string,
                                   key: Key, attrs: map<string, Value>)
    requires Inverse(codec) && key in datastore && ChangeLog !in attrs
    ensures var returned := map[name := Wrapped(key, InitLog(attrs))];
            SerializeOutput(codec, returned).Success? &&
            OutputDecodes(codec, datastore, SerializeOutput(codec, returned).value) &&
            RebuiltOutput(codec, datastore, SerializeOutput(codec, returned).value) == map[name := Model(key, datastore[key])]
  {
    assert InitLog(attrs)[ChangeLog] == VDict(map[]);
    WrapperRoundTrip(codec, datastore, name, key, InitLog(attrs));
    assert datastore[key] + map[] == datastore[key];
  }
}
