/** `Module` (Source/Model/Module.swift): a Halo module as parsed from the server's dictionary. Each
    field is read with a conditional cast; the two flags default to false, and the tag list is read only
    when it has the shape of a list of string dictionaries. */
module ModuleModel {
  import opened Common
  import opened TagModel

  /** `lastUpdate` keeps the raw `updatedAt` number (milliseconds since 1970); the module type is not
      part of this model. */
  datatype Module = Module(
    id: Option<int>,
    name: Option<string>,
    enabled: bool,
    isSingle: bool,
    lastUpdate: Option<int>,
    internalId: Option<string>,
    tags: seq<Tag>)

  /** `dict[key] as? NSNumber`: a number reads as itself, and a boolean, which Foundation stores as a
      number, reads as 1 or 0. */
  function NumberAt(dict: map<string, Json>, key: string): (r: Option<int>)
    ensures r.Some? <==> key in dict && (dict[key].JNumber? || dict[key].JBool?)
    ensures key in dict && dict[key].JNumber? ==> r == Some(dict[key].n)
    ensures key in dict && dict[key].JBool? ==> r == Some(if dict[key].b then 1 else 0)
  {
    if key !in dict then None
    else match dict[key]
      case JNumber(n) => Some(n)
      case JBool(b) => Some(if b then 1 else 0)
      case _ => None
  }

  /** `as? [String: String]`: an object all of whose values are strings. */
  function StringDictionary(j: Json): (r: Option<map<string, string>>)
    ensures r.Some? <==> j.JObject? && forall k :: k in j.fields ==> j.fields[k].JString?
    ensures r.Some? ==> r.value.Keys == j.fields.Keys && forall k :: k in r.value ==> j.fields[k] == JString(r.value[k])
  {
    if j.JObject? && forall k :: k in j.fields ==> j.fields[k].JString? then
      Some(map k | k in j.fields :: j.fields[k].s)
    else None
  }

  /** `dict["tags"] as? [[String: String]]`: present only when every entry is a string dictionary. */
  function TagsList(dict: map<string, Json>): (r: Option<seq<map<string, string>>>)
    ensures r.Some? <==> "tags" in dict && dict["tags"].JArray?
                         && forall i :: 0 <= i < |dict["tags"].items| ==> StringDictionary(dict["tags"].items[i]).Some?
    ensures r.Some? ==> |r.value| == |dict["tags"].items|
                        && forall i :: 0 <= i < |r.value| ==> StringDictionary(dict["tags"].items[i]) == Some(r.value[i])
  {
    if "tags" in dict && dict["tags"].JArray?
       && forall i :: 0 <= i < |dict["tags"].items| ==> StringDictionary(dict["tags"].items[i]).Some? then
      var items := dict["tags"].items;
      Some(seq(|items|, i requires 0 <= i < |items| => StringDictionary(items[i]).value))
    else None
  }

  /** What the initialiser demands: `tag["name"]!` traps on a tag entry without a name. */
  predicate TagsHaveNames(dict: map<string, Json>) {
    TagsList(dict).Some? ==> forall i :: 0 <= i < |TagsList(dict).value| ==> "name" in TagsList(dict).value[i]
  }

  /** One tag per entry: its name, and its value when the entry has one. */
  function TagOf(entry: map<string, string>): (t: Tag)
    requires "name" in entry
    ensures t.id == None && t.name == entry["name"]
    ensures t.value == (if "value" in entry then Some(entry["value"]) else None)
  {
    NewTag(entry["name"], if "value" in entry then Some(entry["value"]) else None)
  }

  /** `init(_ dict:)`. */
  function Parse(dict: map<string, Json>): (m: Module)
    requires TagsHaveNames(dict)
    ensures m.id == NumberAt(dict, "id") && m.name == StringAt(dict, "name")
    ensures m.isSingle <==> BoolAt(dict, "isSingle") == Some(true)
    ensures m.enabled <==> BoolAt(dict, "enabled") == Some(true)
    ensures m.lastUpdate == NumberAt(dict, "updatedAt")
    ensures m.internalId == StringAt(dict, "internalId")
    ensures TagsList(dict).None? ==> m.tags == []
    ensures TagsList(dict).Some? ==> |m.tags| == |TagsList(dict).value|
    ensures TagsList(dict).Some? ==> forall i :: 0 <= i < |m.tags| ==> m.tags[i] == TagOf(TagsList(dict).value[i])
  {
    var isSingle := BoolAt(dict, "isSingle");
    var enabled := BoolAt(dict, "enabled");
    var tags := match TagsList(dict)
      case None => []
      case Some(list) => seq(|list|, i requires 0 <= i < |list| => TagOf(list[i]));
    Module(NumberAt(dict, "id"), StringAt(dict, "name"),
           if enabled.Some? then enabled.value else false,
           if isSingle.Some? then isSingle.value else false,
           NumberAt(dict, "updatedAt"), StringAt(dict, "internalId"), tags)
  }

  /** A dictionary without any of the keys gives a disabled, non-single module with no tags and nothing else. */
  lemma ParseEmpty()
    ensures Parse(map[]) == Module(None, None, false, false, None, None, [])
  {
  }

  /** A flag that is neither a boolean nor a number counts as false, a number flag is true exactly when
      it is not zero, a boolean id reads as 1, and a tag list with an entry that is not a string
      dictionary is dropped as a whole. */
  lemma WrongTypesFallBack(dict: map<string, Json>, i: nat)
    requires TagsHaveNames(dict)
    requires "tags" in dict && dict["tags"].JArray? && i < |dict["tags"].items| && !dict["tags"].items[i].JObject?
    ensures Parse(dict).tags == []
    ensures var m := Parse(dict["enabled" := JString("true")]["isSingle" := JNumber(1)]["id" := JBool(true)]);
      && !m.enabled && m.isSingle && m.id == Some(1)
    ensures Parse(dict["enabled" := JNumber(0)]).enabled == false
  {
    var d := dict["enabled" := JString("true")]["isSingle" := JNumber(1)]["id" := JBool(true)];
    assert d["tags"] == dict["tags"];
    assert TagsList(d) == TagsList(dict);
    var e := dict["enabled" := JNumber(0)];
    assert e["tags"] == dict["tags"];
    assert TagsList(e) == TagsList(dict);
  }
}
