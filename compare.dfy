/** `compare_json`: a shallow, key-wise diff of two JSON objects. */
module Compare {
  import opened Wrappers
  import opened PyJson

  /** One reported difference, `{'ref': ..., 'version': ...}`. */
  datatype Diff = Diff(ref: Json, version: Json)

  /** The keys of either object whose values differ under Python `!=`,
      where a missing key reads as None. */
  ghost predicate Differs(m1: map<string, Json>, m2: map<string, Json>, k: string) {
    (k in m1 || k in m2) && !Equal(Get(m1, k), Get(m2, k))
  }

  /** compare_json on two dicts: None when nothing differs, otherwise exactly
      the differing keys, each mapped to its two `.get` values. */
  function CompareObjects(m1: map<string, Json>, m2: map<string, Json>): (r: Option<map<string, Diff>>)
    ensures r.None? <==> forall k :: k in m1 || k in m2 ==> Equal(Get(m1, k), Get(m2, k))
    ensures r.Some? ==> forall k :: k in r.value <==> Differs(m1, m2, k)
    ensures r.Some? ==> forall k :: k in r.value ==> r.value[k] == Diff(Get(m1, k), Get(m2, k))
  {
    var differences := map k | k in m1.Keys + m2.Keys && !Equal(Get(m1, k), Get(m2, k))
                               :: Diff(Get(m1, k), Get(m2, k));
    if differences == map[] then
      assert forall k :: k in m1 || k in m2 ==> k !in differences;
      None
    else
      Some(differences)
  }

  /** compare_json on arbitrary loaded values: `json1.keys()` is evaluated
      before `json2.keys()`, and a non-dict has no `keys` attribute. */
  function CompareJson(json1: Json, json2: Json): (r: Result<Option<map<string, Diff>>, PyError>)
    ensures r.Success? <==> json1.JObject? && json2.JObject?
    ensures r.Success? ==> r.value == CompareObjects(json1.fields, json2.fields)
    ensures !json1.JObject? ==> r == Failure(NoKeys(json1))
    ensures json1.JObject? && !json2.JObject? ==> r == Failure(NoKeys(json2))
  {
    if !json1.JObject? then Failure(NoKeys(json1))
    else if !json2.JObject? then Failure(NoKeys(json2))
    else Success(CompareObjects(json1.fields, json2.fields))
  }

  /** The AttributeError `j.keys()` raises on a value that is not a dict. */
  function NoKeys(j: Json): PyError {
    NoAttribute(TypeName(j), "keys")
  }

  /** Two objects that are identical (or equal under Python `==`) yield None. */
  lemma IdenticalYieldsNone(m1: map<string, Json>, m2: map<string, Json>)
    requires Equal(JObject(m1), JObject(m2))
    ensures CompareObjects(m1, m2) == None
  {
    forall k | k in m1 || k in m2 ensures Equal(Get(m1, k), Get(m2, k)) {
      assert k in m1 && k in m2;
    }
  }

  lemma SelfYieldsNone(m: map<string, Json>)
    ensures CompareObjects(m, m) == None
  {
    EqualReflexive(JObject(m));
    IdenticalYieldsNone(m, m);
  }

  /** So None does not mean the two dicts are equal: `{"a": null}` and `{}`
      differ under `==` yet compare as identical. */
  lemma NullVersusAbsent()
    ensures CompareObjects(map["a" := JNull], map[]) == None
    ensures !Equal(JObject(map["a" := JNull]), JObject(map[]))
  {
    var empty: map<string, Json> := map[];
    assert "a" in map["a" := JNull].Keys && "a" !in empty.Keys;
  }

  /** `{a:1, b:2}` against `{a:1, b:3}` reports only `b`. */
  lemma ChangedValueExample()
    ensures CompareObjects(map["a" := JInt(1), "b" := JInt(2)], map["a" := JInt(1), "b" := JInt(3)])
         == Some(map["b" := Diff(JInt(2), JInt(3))])
  {
    var m1, m2 := map["a" := JInt(1), "b" := JInt(2)], map["a" := JInt(1), "b" := JInt(3)];
    assert !Equal(Get(m1, "b"), Get(m2, "b")) && Equal(Get(m1, "a"), Get(m2, "a"));
    var d := CompareObjects(m1, m2).value;
    assert d.Keys == {"b"} && d["b"] == Diff(JInt(2), JInt(3));
    assert d == map["b" := Diff(JInt(2), JInt(3))];
  }

  /** `{a:1}` against `{a:1, c:4}` reports `c` with a null reference side. */
  lemma AddedKeyExample()
    ensures CompareObjects(map["a" := JInt(1)], map["a" := JInt(1), "c" := JInt(4)])
         == Some(map["c" := Diff(JNull, JInt(4))])
  {
    var m1, m2 := map["a" := JInt(1)], map["a" := JInt(1), "c" := JInt(4)];
    assert !Equal(Get(m1, "c"), Get(m2, "c")) && Equal(Get(m1, "a"), Get(m2, "a"));
    var d := CompareObjects(m1, m2).value;
    assert d.Keys == {"c"} && d["c"] == Diff(JNull, JInt(4));
    assert d == map["c" := Diff(JNull, JInt(4))];
  }

  /** `True` and `1` are equal in Python, so they are not reported. */
  lemma BoolMatchesNumber()
    ensures CompareObjects(map["ok" := JBool(true)], map["ok" := JFloat(1.0)]) == None
  {
  }

  /** A key absent on one side and mapped to null on the other is not
      reported, because `.get` gives None for both. */
  lemma AbsentMatchesNull(m1: map<string, Json>, m2: map<string, Json>, k: string)
    requires (k !in m1 && k in m2 && m2[k] == JNull) || (k in m1 && m1[k] == JNull && k !in m2)
    ensures CompareObjects(m1, m2).Some? ==> k !in CompareObjects(m1, m2).value
  {
  }

  /** Swapping the arguments swaps `ref` and `version` in every entry. */
  lemma SwapArguments(m1: map<string, Json>, m2: map<string, Json>)
    ensures CompareObjects(m1, m2).None? <==> CompareObjects(m2, m1).None?
    ensures CompareObjects(m1, m2).Some? ==>
      var d, e := CompareObjects(m1, m2).value, CompareObjects(m2, m1).value;
      d.Keys == e.Keys && forall k :: k in d ==> e[k] == Diff(d[k].version, d[k].ref)
  {
    forall k | k in m1 || k in m2
      ensures Equal(Get(m1, k), Get(m2, k)) <==> Equal(Get(m2, k), Get(m1, k))
    {
      if Equal(Get(m1, k), Get(m2, k)) { EqualSymmetric(Get(m1, k), Get(m2, k)); }
      if Equal(Get(m2, k), Get(m1, k)) { EqualSymmetric(Get(m2, k), Get(m1, k)); }
    }
  }
}
