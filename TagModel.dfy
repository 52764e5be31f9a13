/** `Tag` (Source/Model/Tag.swift): an optional id, a name and an optional value, with its dictionary
    representation, its NSCoding archive and its name-only equality. */
module TagModel {
  import opened Common

  datatype Tag = Tag(id: Option<string>, name: string, value: Option<string>)

  /** `init(name:value:)`: a tag that has not been stored on the server yet. */
  function NewTag(name: string, value: Option<string>): (t: Tag)
    ensures t.id == None
    ensures t.name == name && t.value == value
  {
    Tag(None, name, value)
  }

  /** `toDictionary`: `name` is always written; `id` and `value` only when they are set. */
  function ToDictionary(t: Tag): (d: map<string, Json>)
    ensures "name" in d && d["name"] == JString(t.name)
    ensures "id" in d <==> t.id.Some?
    ensures "value" in d <==> t.value.Some?
    ensures t.id.Some? ==> d["id"] == JString(t.id.value)
    ensures t.value.Some? ==> d["value"] == JString(t.value.value)
    ensures d.Keys <= {"id", "name", "value"}
  {
    var withId := if t.id.Some? then map["id" := JString(t.id.value)] else map[];
    var withValue := if t.value.Some? then withId["value" := JString(t.value.value)] else withId;
    withValue["name" := JString(t.name)]
  }

  /** `dict["name"] as! String` succeeds: the name is present and a string. */
  predicate HasName(dict: map<string, Json>) {
    "name" in dict && dict["name"].JString?
  }

  /** `fromDictionary`: the name is force-cast, so a missing or non-string name traps (None here);
      `id` and `value` are read when they are strings. */
  function FromDictionary(dict: map<string, Json>): (r: Option<Tag>)
    ensures r.Some? <==> HasName(dict)
    ensures r.Some? ==> JString(r.value.name) == dict["name"]
    ensures r.Some? ==> r.value.id == StringAt(dict, "id") && r.value.value == StringAt(dict, "value")
  {
    if !HasName(dict) then None
    else
      var tag := NewTag(dict["name"].s, StringAt(dict, "value"));
      Some(tag.(id := StringAt(dict, "id")))
  }

  /** A tag survives the dictionary round trip with its id, name and value. */
  lemma DictionaryRoundTrip(t: Tag)
    ensures FromDictionary(ToDictionary(t)) == Some(t)
  {
  }

  /** The NSCoding archive: every key is written, a missing id or value as a null object. */
  function Encode(t: Tag): (archive: map<string, Json>)
    ensures archive.Keys == {"id", "name", "value"}
    ensures archive["name"] == JString(t.name)
  {
    map["id" := OptionalString(t.id), "name" := JString(t.name), "value" := OptionalString(t.value)]
  }

  function OptionalString(o: Option<string>): Json {
    if o.Some? then JString(o.value) else JNull
  }

  /** `init?(coder:)`: `name` is force-cast to a string, so a missing or non-string name traps (None
      here); `id` and `value` are read with `as? String`. */
  function Decode(archive: map<string, Json>): (r: Option<Tag>)
    ensures r.Some? <==> HasName(archive)
    ensures r.Some? ==> JString(r.value.name) == archive["name"]
    ensures r.Some? ==> r.value.id == StringAt(archive, "id") && r.value.value == StringAt(archive, "value")
  {
    if HasName(archive) then Some(Tag(StringAt(archive, "id"), archive["name"].s, StringAt(archive, "value")))
    else None
  }

  /** Decoding an encoded tag gives back its id, name and value. */
  lemma CodingRoundTrip(t: Tag)
    ensures Decode(Encode(t)) == Some(t)
  {
  }

  /** What `isEqual` may be handed: nil, a tag, or an object of another class. */
  datatype AnyObject = TagObject(tag: Tag) | OtherObject(className: string)

  /** `isEqual(object:)`: an object of another dynamic type (nil included) is never equal; two tags
      are equal exactly when their names are. */
  function IsEqual(t: Tag, obj: Option<AnyObject>): (eq: bool)
    ensures eq <==> obj.Some? && obj.value.TagObject? && obj.value.tag.name == t.name
  {
    match obj
    case None => false
    case Some(o) =>
      match o
      case OtherObject(_) => false
      case TagObject(other) => other.name == t.name
  }

  /** The metatypes the guard of `isEqual` compares. */
  datatype MetaType = OptionalOfAnyObject | TagClass | ClassNamed(name: string)

  /** `object.dynamicType` as written: `object` is an `AnyObject?`, and the expression is the optional
      itself, so its dynamic type is `Optional<AnyObject>` whatever it wraps. */
  function OptionalDynamicType(obj: Option<AnyObject>): MetaType {
    OptionalOfAnyObject
  }

  /** `isEqual(object:)` as written: the guard compares the optional's metatype with the tag's, which
      never match, so the method answers false before it reaches the name comparison. */
  function IsEqualAsWritten(t: Tag, obj: Option<AnyObject>): (eq: bool)
    ensures !eq
  {
    if OptionalDynamicType(obj) != TagClass then false else IsEqual(t, obj)
  }

  /** As written, a tag is not even equal to itself, where the name equality `IsEqual` states holds. */
  lemma AsWrittenRejectsItself(t: Tag)
    ensures !IsEqualAsWritten(t, Some(TagObject(t)))
    ensures IsEqual(t, Some(TagObject(t)))
  {
  }

  /** Name-only equality is an equivalence on tags that ignores ids and values. */
  lemma IsEqualIsEquivalence(a: Tag, b: Tag, c: Tag)
    ensures IsEqual(a, Some(TagObject(a)))
    ensures IsEqual(a, Some(TagObject(b))) == IsEqual(b, Some(TagObject(a)))
    ensures IsEqual(a, Some(TagObject(b))) && IsEqual(b, Some(TagObject(c))) ==> IsEqual(a, Some(TagObject(c)))
    ensures IsEqual(a, Some(TagObject(a.(id := b.id, value := b.value))))
  {
  }

  /** A list of tags serialised in order, as `tags.map { $0.toDictionary() }`. */
  function TagsJson(ts: seq<Tag>): (j: Json)
    ensures j.JArray? && |j.items| == |ts|
    ensures forall i :: 0 <= i < |ts| ==> j.items[i] == JObject(ToDictionary(ts[i]))
  {
    JArray(seq(|ts|, i requires 0 <= i < |ts| => JObject(ToDictionary(ts[i]))))
  }
}
