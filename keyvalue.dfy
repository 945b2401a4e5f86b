/**
 * The four converters of rule/lambda_function.py between Python dictionaries
 * and the AWS `[{"Key": k, "Value": v}, ...]` lists. A Python dictionary whose
 * iteration order matters is represented by its items in insertion order;
 * keys and values are strings, so the `str(...)` conversions the converters
 * apply are the identity.
 */
module KeyValue {

  import opened PyValue

  /** One `{"Key": k, "Value": v}` object. */
  datatype KeyValue = KeyValue(key: string, value: string)

  /** A dictionary of strings, as its `(key, value)` items in insertion order. */
  type Items = seq<(string, string)>

  /** The items come from a real dictionary: no key occurs twice. */
  predicate DistinctKeys(d: Items)
  {
    forall i, j | 0 <= i < j < |d| :: d[i].0 != d[j].0
  }

  /** The dictionary built from the items in order, a later item overwriting an earlier one. */
  function ToMap(d: Items): map<string, string>
  {
    if d == [] then map[] else ToMap(d[..|d| - 1])[d[|d| - 1].0 := d[|d| - 1].1]
  }

  /** `expand_dict_to_key_value_list_obj`: one object per item, in the dictionary's order. */
  function ExpandDict(d: Items): seq<KeyValue>
  {
    seq(|d|, i requires 0 <= i < |d| => KeyValue(d[i].0, d[i].1))
  }

  /** `expand_list_dict_to_key_value_list_obj`: the items of every dictionary of the list, flattened in order. */
  function ExpandListDict(ds: seq<Items>): seq<KeyValue>
  {
    if ds == [] then [] else ExpandDict(ds[0]) + ExpandListDict(ds[1..])
  }

  /** `key_value_list_obj_to_compressed_list_dict`: one single-key dictionary per object. */
  function CompressedListDict(kvs: seq<KeyValue>): seq<Items>
  {
    seq(|kvs|, i requires 0 <= i < |kvs| => [(kvs[i].key, kvs[i].value)])
  }

  /**
   * `key_value_list_obj_to_compressed_dict`: one entry per distinct key, holding
   * the value of the last object with that key.
   */
  function CompressedDict(kvs: seq<KeyValue>): map<string, string>
  {
    if kvs == [] then map[]
    else CompressedDict(kvs[..|kvs| - 1])[kvs[|kvs| - 1].key := kvs[|kvs| - 1].value]
  }

  /** The compressed dictionary has one key per distinct key of the objects. */
  lemma {:induction false} CompressedDictKeys(kvs: seq<KeyValue>)
    ensures CompressedDict(kvs).Keys == set kv | kv in kvs :: kv.key
  {
    if kvs != [] {
      var init := kvs[..|kvs| - 1];
      CompressedDictKeys(init);
      assert forall kv | kv in kvs :: kv in init || kv == kvs[|kvs| - 1];
    }
  }

  /** Each key of the compressed dictionary holds the value of the last object with that key. */
  lemma {:induction false} CompressedDictKeepsLast(kvs: seq<KeyValue>, i: nat)
    requires i < |kvs| && LastWithKey(kvs, i)
    ensures kvs[i].key in CompressedDict(kvs) && CompressedDict(kvs)[kvs[i].key] == kvs[i].value
  {
    var n := |kvs| - 1;
    if i < n {
      CompressedDictKeepsLast(kvs[..n], i);
    }
  }

  /** No object after position `i` has the key of the object at `i`. */
  predicate LastWithKey(kvs: seq<KeyValue>, i: nat)
    requires i < |kvs|
  {
    forall j | i < j < |kvs| :: kvs[j].key != kvs[i].key
  }

  /** Compressing the expansion of a dictionary gives back that dictionary. */
  lemma {:induction false} CompressExpandDict(d: Items)
    ensures CompressedDict(ExpandDict(d)) == ToMap(d)
  {
    if d != [] {
      var n := |d| - 1;
      assert ExpandDict(d)[..n] == ExpandDict(d[..n]);
      CompressExpandDict(d[..n]);
    }
  }

  /** The expansion of a dictionary has exactly one object per key. */
  lemma {:induction false} ExpandDictOnePerKey(d: Items)
    requires DistinctKeys(d)
    ensures |ExpandDict(d)| == |ToMap(d)| == |d|
    ensures ToMap(d).Keys == set kv | kv in ExpandDict(d) :: kv.key
  {
    if d != [] {
      var n := |d| - 1;
      ExpandDictOnePerKey(d[..n]);
      ToMapKeys(d[..n]);
      assert d[n].0 !in ToMap(d[..n]);
      CompressExpandDict(d);
      CompressedDictKeys(ExpandDict(d));
    }
  }

  lemma {:induction false} ToMapKeys(d: Items)
    ensures ToMap(d).Keys == set i | 0 <= i < |d| :: d[i].0
  {
    if d != [] {
      var n := |d| - 1;
      ToMapKeys(d[..n]);
      assert (set i | 0 <= i < |d| :: d[i].0) == (set i | 0 <= i < n :: d[..n][i].0) + {d[n].0};
    }
  }

  /** Expanding the compressed list gives back the original list of objects. */
  lemma {:induction false} ExpandCompressListDict(kvs: seq<KeyValue>)
    ensures ExpandListDict(CompressedListDict(kvs)) == kvs
  {
    if kvs != [] {
      assert CompressedListDict(kvs)[1..] == CompressedListDict(kvs[1..]);
      ExpandCompressListDict(kvs[1..]);
      assert ExpandDict(CompressedListDict(kvs)[0]) == [kvs[0]];
    }
  }

  /** A list of single-key dictionaries survives expansion followed by compression. */
  lemma {:induction false} CompressExpandListDict(ds: seq<Items>)
    requires forall i | 0 <= i < |ds| :: |ds[i]| == 1
    ensures CompressedListDict(ExpandListDict(ds)) == ds
  {
    if ds != [] {
      CompressExpandListDict(ds[1..]);
      var e := ExpandListDict(ds);
      assert e == [KeyValue(ds[0][0].0, ds[0][0].1)] + ExpandListDict(ds[1..]);
      assert CompressedListDict(e)[1..] == CompressedListDict(ExpandListDict(ds[1..]));
      assert CompressedListDict(e)[0] == [ds[0][0]] == ds[0];
      assert CompressedListDict(e) == [ds[0]] + ds[1..];
    }
  }

  /** The `[{"Key": k, "Value": v}, ...]` list of a tag dictionary. */
  function TagList(tags: Items): (v: Json)
    ensures v.List? && |v.items| == |tags|
    ensures forall i | 0 <= i < |tags| :: v.items[i] == Object(map["Key" := Str(tags[i].0), "Value" := Str(tags[i].1)])
  {
    List(seq(|tags|, i requires 0 <= i < |tags| =>
      Object(map["Key" := Str(tags[i].0), "Value" := Str(tags[i].1)])))
  }

  /** The `Tags` list keeps every declared pair, in order: distinct declarations give distinct lists. */
  lemma TagListInjective(a: Items, b: Items)
    ensures TagList(a) == TagList(b) <==> a == b
  {
    if TagList(a) == TagList(b) {
      forall i | 0 <= i < |a|
        ensures a[i] == b[i]
      {
        var o, p := TagList(a).items[i], TagList(b).items[i];
        assert o.fields["Key"] == Str(a[i].0) && p.fields["Key"] == Str(b[i].0);
        assert o.fields["Value"] == Str(a[i].1) && p.fields["Value"] == Str(b[i].1);
      }
    }
  }

  /** The `Tags` list holds no `None`. */
  lemma TagListNoNone(tags: Items)
    ensures NoNone(TagList(tags))
  {
    var items := TagList(tags).items;
    forall i | 0 <= i < |items|
      ensures NoNone(items[i])
    {
      var o := map["Key" := Str(tags[i].0), "Value" := Str(tags[i].1)];
      assert items[i] == Object(o);
      assert NoNone(o["Key"]) && NoNone(o["Value"]);
    }
  }

  /** A list of `{"Key": k, "Value": v}` objects as a value. */
  function KeyValueList(kvs: seq<KeyValue>): (v: Json)
    ensures v.List? && |v.items| == |kvs|
    ensures forall i | 0 <= i < |kvs| :: v.items[i] == Object(map["Key" := Str(kvs[i].key), "Value" := Str(kvs[i].value)])
  {
    List(seq(|kvs|, i requires 0 <= i < |kvs| =>
      Object(map["Key" := Str(kvs[i].key), "Value" := Str(kvs[i].value)])))
  }

  /** The `Tags` attribute is the expansion of the declared dictionary. */
  lemma TagListIsExpansion(tags: Items)
    ensures TagList(tags) == KeyValueList(ExpandDict(tags))
  {
  }
}
