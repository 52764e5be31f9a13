/** `SearchOptions` (Source/GeneralContent/SearchOptions.swift): the value-typed search description handed
    to the content manager. Its `mutating` setters replace one field and return the updated value; they
    are modelled as functions from the old value to the new one. `body` writes a key exactly when its
    option is set, the segment tags when a user with tags is set, and never a segment mode or the offline
    policy. */
module SearchOptionsModel {
  import opened Common
  import opened TagModel
  import opened Entities

  datatype SearchOptions = SearchOptions(
    moduleIds: Option<seq<string>>,
    instanceIds: Option<seq<string>>,
    conditions: Option<map<string, Json>>,
    metaConditions: Option<map<string, Json>>,
    fields: Option<seq<string>>,
    populateFields: Option<seq<string>>,
    tags: Option<seq<Tag>>,
    pagination: Option<map<string, Json>>,
    user: Option<User>,
    offlinePolicy: Option<OfflinePolicy>,
    locale: Option<Locale>)

  /** `init()`: nothing set. */
  const NoOptions := SearchOptions(None, None, None, None, None, None, None, None, None, None, None)

  /** The keys `body` may hold. */
  const BodyKeys: set<string> := {"moduleIds", "instanceIds", "searchValues", "metaSearch", "fields", "tags",
                                  "include", "pagination", "segmentTags", "locale"}

  /** `Bool.description`. */
  function BoolDescription(b: bool): (s: string)
    ensures s == "true" <==> b
    ensures s == "false" <==> !b
  {
    if b then "true" else "false"
  }

  /** What `body` writes under one key, if anything. */
  function Entry(o: SearchOptions, key: string): Option<Json> {
    if key == "moduleIds" then (if o.moduleIds.Some? then Some(Strings(o.moduleIds.value)) else None)
    else if key == "instanceIds" then (if o.instanceIds.Some? then Some(Strings(o.instanceIds.value)) else None)
    else if key == "searchValues" then (if o.conditions.Some? then Some(JObject(o.conditions.value)) else None)
    else if key == "metaSearch" then (if o.metaConditions.Some? then Some(JObject(o.metaConditions.value)) else None)
    else if key == "fields" then (if o.fields.Some? then Some(Strings(o.fields.value)) else None)
    else if key == "tags" then (if o.tags.Some? then Some(TagsJson(o.tags.value)) else None)
    else if key == "include" then (if o.populateFields.Some? then Some(Strings(o.populateFields.value)) else None)
    else if key == "pagination" then (if o.pagination.Some? then Some(JObject(o.pagination.value)) else None)
    else if key == "segmentTags" then
      (if o.user.Some? && |o.user.value.tags| > 0 then Some(TagsJson(o.user.value.tags)) else None)
    else if key == "locale" then (if o.locale.Some? then Some(JString(o.locale.value.description)) else None)
    else None
  }

  /** `body`: every key whose entry is set, with that entry. */
  function Body(o: SearchOptions): (b: map<string, Json>)
    ensures b.Keys <= BodyKeys
    ensures forall k :: k in b <==> k in BodyKeys && Entry(o, k).Some?
    ensures forall k :: k in b ==> b[k] == Entry(o, k).value
  {
    map k | k in BodyKeys && Entry(o, k).Some? :: Entry(o, k).value
  }

  /** The selection keys are in the body exactly when their options are set, with their values. */
  lemma SelectionKeys(o: SearchOptions)
    ensures var b := Body(o);
      && ("moduleIds" in b <==> o.moduleIds.Some?)
      && ("instanceIds" in b <==> o.instanceIds.Some?)
      && ("searchValues" in b <==> o.conditions.Some?)
      && ("metaSearch" in b <==> o.metaConditions.Some?)
      && ("fields" in b <==> o.fields.Some?)
      && (o.moduleIds.Some? ==> b["moduleIds"] == Strings(o.moduleIds.value))
      && (o.instanceIds.Some? ==> b["instanceIds"] == Strings(o.instanceIds.value))
      && (o.conditions.Some? ==> b["searchValues"] == JObject(o.conditions.value))
      && (o.metaConditions.Some? ==> b["metaSearch"] == JObject(o.metaConditions.value))
      && (o.fields.Some? ==> b["fields"] == Strings(o.fields.value))
  {
  }

  /** The remaining keys are in the body exactly when their options are set, with their values; the
      segment tags exactly when a user with at least one tag is set. */
  lemma ShapingKeys(o: SearchOptions)
    ensures var b := Body(o);
      && ("tags" in b <==> o.tags.Some?)
      && ("include" in b <==> o.populateFields.Some?)
      && ("pagination" in b <==> o.pagination.Some?)
      && ("segmentTags" in b <==> o.user.Some? && |o.user.value.tags| > 0)
      && ("locale" in b <==> o.locale.Some?)
      && (o.tags.Some? ==> b["tags"] == TagsJson(o.tags.value))
      && (o.populateFields.Some? ==> b["include"] == Strings(o.populateFields.value))
      && (o.pagination.Some? ==> b["pagination"] == JObject(o.pagination.value))
      && ("segmentTags" in b ==> b["segmentTags"] == TagsJson(o.user.value.tags))
      && (o.locale.Some? ==> b["locale"] == JString(o.locale.value.description))
  {
  }

  /** The body never carries a segment mode, and the offline policy never reaches it. */
  lemma NoSegmentModeNorPolicy(o: SearchOptions, policy: Option<OfflinePolicy>)
    ensures "segmentMode" !in Body(o)
    ensures Body(o.(offlinePolicy := policy)) == Body(o)
  {
    assert forall k :: Entry(o.(offlinePolicy := policy), k) == Entry(o, k);
  }

  /** No options, empty body. */
  lemma NoOptionsBody()
    ensures Body(NoOptions) == map[]
  {
    NoOptionsEntries();
    assert Body(NoOptions).Keys == {};
  }

  lemma NoOptionsEntries()
    ensures forall k :: Entry(NoOptions, k).None?
  {
  }

  /** Two option values whose entries differ at most under one key, set in the second, have bodies that
      differ only there. */
  lemma OneEntryChanged(o: SearchOptions, o': SearchOptions, key: string)
    requires key in BodyKeys && Entry(o', key).Some?
    requires forall k :: k != key ==> Entry(o', k) == Entry(o, k)
    ensures Body(o') == Body(o)[key := Entry(o', key).value]
  {
    SameKeysElsewhere(o, o', key);
    SameValuesElsewhere(o, o', key);
    UpdatedAt(Body(o'), Body(o), key, Entry(o', key).value);
  }

  lemma SameKeysElsewhere(o: SearchOptions, o': SearchOptions, key: string)
    requires forall k :: k != key ==> Entry(o', k) == Entry(o, k)
    ensures forall k :: k != key ==> (k in Body(o') <==> k in Body(o))
  {
  }

  lemma SameValuesElsewhere(o: SearchOptions, o': SearchOptions, key: string)
    requires forall k :: k != key ==> Entry(o', k) == Entry(o, k)
    ensures forall k :: k != key && k in Body(o') ==> Body(o')[k] == Body(o)[k]
  {
  }

  function SetSearchFilter(o: SearchOptions, filterBody: map<string, Json>): (r: SearchOptions)
    ensures Body(r) == Body(o)["searchValues" := JObject(filterBody)]
    ensures r.offlinePolicy == o.offlinePolicy
  {
    var r := o.(conditions := Some(filterBody));
    OneEntryChanged(o, r, "searchValues");
    r
  }

  function SetMetaFilter(o: SearchOptions, filterBody: map<string, Json>): (r: SearchOptions)
    ensures Body(r) == Body(o)["metaSearch" := JObject(filterBody)]
    ensures r.offlinePolicy == o.offlinePolicy
  {
    var r := o.(metaConditions := Some(filterBody));
    OneEntryChanged(o, r, "metaSearch");
    r
  }

  function SetFields(o: SearchOptions, fs: seq<string>): (r: SearchOptions)
    ensures Body(r) == Body(o)["fields" := Strings(fs)]
    ensures r.offlinePolicy == o.offlinePolicy
  {
    var r := o.(fields := Some(fs));
    OneEntryChanged(o, r, "fields");
    r
  }

  function SetTags(o: SearchOptions, ts: seq<Tag>): (r: SearchOptions)
    ensures Body(r) == Body(o)["tags" := TagsJson(ts)]
    ensures r.offlinePolicy == o.offlinePolicy
  {
    var r := o.(tags := Some(ts));
    OneEntryChanged(o, r, "tags");
    r
  }

  function SetModuleIds(o: SearchOptions, ids: seq<string>): (r: SearchOptions)
    ensures Body(r) == Body(o)["moduleIds" := Strings(ids)]
    ensures r.offlinePolicy == o.offlinePolicy
  {
    var r := o.(moduleIds := Some(ids));
    OneEntryChanged(o, r, "moduleIds");
    r
  }

  function SetInstanceIds(o: SearchOptions, ids: seq<string>): (r: SearchOptions)
    ensures Body(r) == Body(o)["instanceIds" := Strings(ids)]
    ensures r.offlinePolicy == o.offlinePolicy
  {
    var r := o.(instanceIds := Some(ids));
    OneEntryChanged(o, r, "instanceIds");
    r
  }

  function SetPopulateFields(o: SearchOptions, fs: seq<string>): (r: SearchOptions)
    ensures Body(r) == Body(o)["include" := Strings(fs)]
    ensures r.offlinePolicy == o.offlinePolicy
  {
    var r := o.(populateFields := Some(fs));
    OneEntryChanged(o, r, "include");
    r
  }

  /** `populateAll()`: include is `["all"]`. */
  function PopulateAll(o: SearchOptions): (r: SearchOptions)
    ensures Body(r) == Body(o)["include" := JArray([JString("all")])]
    ensures r.offlinePolicy == o.offlinePolicy
  {
    var r := o.(populateFields := Some(["all"]));
    OneEntryChanged(o, r, "include");
    assert Strings(["all"]) == JArray([JString("all")]);
    r
  }

  /** `setUser(_:)`: only the segment tags can change; they are sent exactly when the user has tags. */
  function SetUser(o: SearchOptions, u: User): (r: SearchOptions)
    ensures forall k :: k != "segmentTags" ==> (k in Body(r) <==> k in Body(o)) && (k in Body(r) ==> Body(r)[k] == Body(o)[k])
    ensures "segmentTags" in Body(r) <==> |u.tags| > 0
    ensures "segmentTags" in Body(r) ==> Body(r)["segmentTags"] == TagsJson(u.tags)
    ensures r.offlinePolicy == o.offlinePolicy
  {
    var r := o.(user := Some(u));
    assert forall k :: k != "segmentTags" ==> Entry(r, k) == Entry(o, k);
    r
  }

  function SetLocale(o: SearchOptions, l: Locale): (r: SearchOptions)
    ensures Body(r) == Body(o)["locale" := JString(l.description)]
    ensures r.offlinePolicy == o.offlinePolicy
  {
    var r := o.(locale := Some(l));
    OneEntryChanged(o, r, "locale");
    r
  }

  /** `skipPagination()`: the pagination is exactly `{skip: "true"}`. */
  function SkipPagination(o: SearchOptions): (r: SearchOptions)
    ensures Body(r) == Body(o)["pagination" := JObject(map["skip" := JString("true")])]
    ensures r.offlinePolicy == o.offlinePolicy
  {
    var r := o.(pagination := Some(map["skip" := JString("true")]));
    OneEntryChanged(o, r, "pagination");
    r
  }

  /** `setPagination(page:limit:skip:)`: page and limit as numbers, skip as the string "true" or "false". */
  function SetPagination(o: SearchOptions, page: int, limit: int, skip: bool): (r: SearchOptions)
    ensures Body(r) == Body(o)["pagination" := JObject(map["page" := JNumber(page), "limit" := JNumber(limit),
                                                             "skip" := JString(if skip then "true" else "false")])]
    ensures r.offlinePolicy == o.offlinePolicy
  {
    var r := o.(pagination := Some(map["page" := JNumber(page), "limit" := JNumber(limit), "skip" := JString(BoolDescription(skip))]));
    OneEntryChanged(o, r, "pagination");
    r
  }

  /** `setOfflinePolicy(_:)`: the policy is stored and the body does not change. */
  function SetOfflinePolicy(o: SearchOptions, policy: OfflinePolicy): (r: SearchOptions)
    ensures r.offlinePolicy == Some(policy)
    ensures Body(r) == Body(o)
  {
    NoSegmentModeNorPolicy(o, Some(policy));
    o.(offlinePolicy := Some(policy))
  }
}
