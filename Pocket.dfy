/** `Pocket` (Sources/Model/Pocket.swift): a multimap of references (key to an optional list of values,
    to which `addReference` never adds a value twice, though `setReference` and `fromDictionary` store
    any list) and a free-form data dictionary, both updated in place. */
module PocketModel {
  import opened Common

  /** `[String: [String]?]`: a key may be absent, present with nil, or present with a list. */
  type References = map<string, Option<seq<string>>>

  /** No list holds the same value twice. */
  ghost predicate NoDuplicates(refs: References) {
    forall k, i, j :: k in refs && refs[k].Some? && 0 <= i < j < |refs[k].value| ==>
      refs[k].value[i] != refs[k].value[j]
  }

  /** The first position of a value in a list: `index(of:)`. */
  function IndexOf(list: seq<string>, v: string): (r: Option<nat>)
    ensures r.Some? ==> r.value < |list| && list[r.value] == v
    ensures r.Some? ==> v !in list[..r.value]
    ensures r.None? <==> v !in list
  {
    if list == [] then None
    else if list[0] == v then Some(0)
    else match IndexOf(list[1..], v)
      case None => None
      case Some(k) =>
        assert list[1..][..k] == list[1..k + 1];
        Some(k + 1)
  }

  /** The references after `addReference(key:value:)`. An absent key first gets an empty list. A key
      present with nil is left alone: `references[key] == nil` only tests the outer optional, and the
      optional binding that follows then skips the append. */
  function AddedReference(refs: References, key: string, v: string): References {
    var refs' := if key !in refs then refs[key := Some([])] else refs;
    match refs'[key]
    case None => refs'
    case Some(list) => if v in list then refs' else refs'[key := Some(list + [v])]
  }

  /** The result and the references after `removeReference(key:value:)`. */
  function RemovedReference(refs: References, key: string, v: string): (bool, References) {
    if key !in refs then (false, refs)
    else match refs[key]
      case None => (false, refs)
      case Some(list) =>
        match IndexOf(list, v)
        case None => (false, refs)
        case Some(i) => (true, refs[key := Some(list[..i] + list[i + 1..])])
  }

  /** Adding to an absent key creates it with just that value; adding a value already listed changes
      nothing; otherwise the value is appended. Other keys are untouched, and references without
      duplicates stay without duplicates. */
  lemma AddReferenceSpec(refs: References, key: string, v: string)
    ensures var r := AddedReference(refs, key, v);
      && (NoDuplicates(refs) ==> NoDuplicates(r))
      && r.Keys == refs.Keys + {key}
      && (forall k :: k in refs && k != key ==> r[k] == refs[k])
      && (key !in refs ==> r[key] == Some([v]))
      && (key in refs && refs[key].Some? && v in refs[key].value ==> r == refs)
      && (key in refs && refs[key].Some? && v !in refs[key].value ==> r[key] == Some(refs[key].value + [v]))
      && (key in refs && refs[key].None? ==> r == refs)
  {
    if key !in refs {
      assert [] + [v] == [v];
    }
  }

  /** Removing reports false and changes nothing when the key is absent, maps to nil, or lacks the value;
      otherwise it drops the first occurrence of the value, and only that one, and reports true. In
      references without duplicates the value is then gone and no list gains a duplicate. */
  lemma {:induction false} RemoveReferenceSpec(refs: References, key: string, v: string)
    ensures var (ok, r) := RemovedReference(refs, key, v);
      && (ok <==> key in refs && refs[key].Some? && v in refs[key].value)
      && (!ok ==> r == refs)
      && (ok ==> var list, i := refs[key].value, IndexOf(refs[key].value, v).value;
                 && r.Keys == refs.Keys
                 && v !in list[..i]
                 && r[key] == Some(list[..i] + list[i + 1..])
                 && multiset(r[key].value) == multiset(list) - multiset{v})
      && (ok && NoDuplicates(refs) ==> v !in r[key].value)
      && (NoDuplicates(refs) ==> NoDuplicates(r))
      && (forall k :: k in refs && k != key ==> k in r && r[k] == refs[k])
  {
    if key in refs && refs[key].Some? && v in refs[key].value {
      var list := refs[key].value;
      var i := IndexOf(list, v).value;
      RemoveAtMultiset(list, i);
      var r := RemovedReference(refs, key, v).1;
      assert r == refs[key := Some(list[..i] + list[i + 1..])];
      if NoDuplicates(refs) {
        RemoveAtSpec(list, i);
      }
    }
  }

  /** Dropping the element at position `i` of a list loses exactly one copy of it. */
  lemma RemoveAtMultiset(list: seq<string>, i: nat)
    requires i < |list|
    ensures multiset(list[..i] + list[i + 1..]) == multiset(list) - multiset{list[i]}
  {
    assert list == list[..i] + [list[i]] + list[i + 1..];
  }

  /** Dropping the element at position `i` of a list without duplicates leaves a list without
      duplicates that no longer holds that element. */
  lemma RemoveAtSpec(list: seq<string>, i: nat)
    requires i < |list|
    requires forall a, b :: 0 <= a < b < |list| ==> list[a] != list[b]
    ensures var rest := list[..i] + list[i + 1..];
      && (forall a, b :: 0 <= a < b < |rest| ==> rest[a] != rest[b])
      && list[i] !in rest
  {
    var rest := list[..i] + list[i + 1..];
    forall a, b | 0 <= a < b < |rest| ensures rest[a] != rest[b] {
      var a' := if a < i then a else a + 1;
      var b' := if b < i then b else b + 1;
      assert rest[a] == list[a'] && rest[b] == list[b'];
    }
    forall a | 0 <= a < |rest| ensures rest[a] != list[i] {
      var a' := if a < i then a else a + 1;
      assert rest[a] == list[a'] && a' != i;
    }
  }

  /** Removing a value that was just added to an existing list restores the references, duplicates
      elsewhere in the list or not. */
  lemma AddThenRemove(refs: References, key: string, v: string)
    requires key in refs && refs[key].Some? && v !in refs[key].value
    ensures RemovedReference(AddedReference(refs, key, v), key, v) == (true, refs)
  {
    var list := refs[key].value;
    var added := AddedReference(refs, key, v);
    assert added == refs[key := Some(list + [v])];
    assert v in list + [v];
    var i := IndexOf(list + [v], v).value;
    assert i == |list|;
    assert (list + [v])[..i] + (list + [v])[i + 1..] == list;
    assert added[key := Some(list)] == refs;
  }

  /** A list may hold a value twice (through `setReference` or `fromDictionary`); removing it then
      drops only its first copy and reports true. */
  lemma RemoveDropsFirstCopyOnly()
    ensures !NoDuplicates(map["k" := Some(["a", "a"])])
    ensures RemovedReference(map["k" := Some(["a", "a"])], "k", "a") == (true, map["k" := Some(["a"])])
  {
    var refs := map["k" := Some(["a", "a"])];
    assert !NoDuplicates(refs) by {
      assert "k" in refs && refs["k"].Some? && 0 <= 0 < 1 < |refs["k"].value|;
      assert refs["k"].value[0] == refs["k"].value[1];
    }
    var list := ["a", "a"];
    assert refs["k"] == Some(list);
    assert IndexOf(list, "a") == Some(0);
    assert list[..0] + list[0 + 1..] == ["a"];
    assert RemovedReference(refs, "k", "a") == (true, refs["k" := Some(["a"])]);
    assert refs["k" := Some(["a"])] == map["k" := Some(["a"])];
  }

  /** The references as `toDictionary` writes them: nil lists as null, lists as arrays of strings. */
  function ReferencesJson(refs: References): Json {
    JObject(map k | k in refs :: if refs[k].Some? then Strings(refs[k].value) else JNull)
  }

  /** `toDictionary`: exactly the keys `references` and `data`. */
  function Dictionary(refs: References, data: map<string, Json>): (d: map<string, Json>)
    ensures d.Keys == {"references", "data"}
  {
    map["references" := ReferencesJson(refs), "data" := JObject(data)]
  }

  /** `as? [String]`: an array all of whose items are strings. */
  function AsStrings(j: Json): (r: Option<seq<string>>)
    ensures r.Some? ==> Strings(r.value) == j
  {
    if j.JArray? && forall i :: 0 <= i < |j.items| ==> j.items[i].JString? then
      var ss := seq(|j.items|, i requires 0 <= i < |j.items| => j.items[i].s);
      assert Strings(ss).items == j.items;
      Some(ss)
    else None
  }

  /** `as? [String: [String]?]`: an object each of whose values is null or an array of strings. */
  function AsReferences(j: Json): Option<References> {
    if j.JObject? && forall k :: k in j.fields ==> j.fields[k].JNull? || AsStrings(j.fields[k]).Some? then
      Some(map k | k in j.fields :: if j.fields[k].JNull? then None else AsStrings(j.fields[k]))
    else None
  }

  /** The references `fromDictionary` reads: empty when the key is missing or has the wrong shape. */
  function ReferencesFrom(dict: map<string, Json>): References {
    if "references" in dict && AsReferences(dict["references"]).Some? then AsReferences(dict["references"]).value
    else map[]
  }

  /** The data `fromDictionary` reads: empty when the key is missing or not a dictionary. */
  function DataFrom(dict: map<string, Json>): map<string, Json> {
    if "data" in dict && dict["data"].JObject? then dict["data"].fields else map[]
  }

  lemma StringsAsStrings(ss: seq<string>)
    ensures AsStrings(Strings(ss)) == Some(ss)
  {
    var j := Strings(ss);
    assert seq(|j.items|, i requires 0 <= i < |j.items| => j.items[i].s) == ss;
  }

  /** `fromDictionary(toDictionary())` gives back the same references and data. */
  lemma DictionaryRoundTrip(refs: References, data: map<string, Json>)
    ensures ReferencesFrom(Dictionary(refs, data)) == refs
    ensures DataFrom(Dictionary(refs, data)) == data
  {
    var j := ReferencesJson(refs);
    forall k | k in refs && refs[k].Some? ensures AsStrings(j.fields[k]) == Some(refs[k].value) {
      StringsAsStrings(refs[k].value);
    }
    assert AsReferences(j).Some?;
    assert AsReferences(j).value == refs;
  }

  /** Missing keys give an empty pocket. */
  lemma FromEmptyDictionary()
    ensures ReferencesFrom(map[]) == map[] && DataFrom(map[]) == map[]
  {
  }

  class Pocket {
    var references: References
    var data: map<string, Json>

    constructor ()
      ensures references == map[] && data == map[]
    {
      references := map[];
      data := map[];
    }

    /** `fromDictionary`. */
    static method FromDictionary(dict: map<string, Json>) returns (p: Pocket)
      ensures fresh(p)
      ensures p.references == ReferencesFrom(dict) && p.data == DataFrom(dict)
    {
      p := new Pocket();
      p.references := ReferencesFrom(dict);
      p.data := DataFrom(dict);
    }

    function ToDictionary(): (d: map<string, Json>)
      reads this
      ensures d.Keys == {"references", "data"}
      ensures ReferencesFrom(d) == references && DataFrom(d) == data
    {
      DictionaryRoundTrip(references, data);
      Dictionary(references, data)
    }

    method AddReference(key: string, v: string)
      modifies this
      ensures references == AddedReference(old(references), key, v)
      ensures data == old(data)
    {
      if key !in references {
        references := references[key := Some([])];
      }
      match references[key] {
        case Some(list) =>
          if IndexOf(list, v).None? {
            references := references[key := Some(list + [v])];
          }
        case None =>
      }
    }

    method RemoveReference(key: string, v: string) returns (removed: bool)
      modifies this
      ensures (removed, references) == RemovedReference(old(references), key, v)
      ensures data == old(data)
    {
      if key !in references {
        return false;
      }
      match references[key] {
        case Some(list) =>
          var index := IndexOf(list, v);
          if index.Some? {
            references := references[key := Some(list[..index.value] + list[index.value + 1..])];
            return true;
          }
        case None =>
      }
      return false;
    }

    /** `setReference(key:values:)`: only that key's entry changes (to nil when `values` is nil). */
    method SetReference(key: string, values: Option<seq<string>>)
      modifies this
      ensures references == old(references)[key := values]
      ensures data == old(data)
    {
      references := references[key := values];
    }

    /** `setData(_:)`: the data dictionary is replaced wholesale. */
    method SetData(newData: map<string, Json>)
      modifies this
      ensures data == newData
      ensures references == old(references)
    {
      data := newData;
    }
  }
}
