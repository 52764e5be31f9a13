/** `SearchQuery` (Source/GeneralContent/SearchQuery.swift): a mutable query object for general-content
    searches. The fluent setters overwrite one field each and return the query; `body` projects the
    fields into the request body, with a key present exactly when its option was set, the segment mode
    always present, and the current user's tags added when segmentation by user is on. */
module SearchQueries {
  import opened Common
  import opened TagModel
  import opened Entities

  datatype SegmentMode = Total | Partial

  /** `SegmentMode.description`. */
  function Description(m: SegmentMode): (s: string)
    ensures s == "total" <==> m == Total
    ensures s == "partial" <==> m == Partial
  {
    match m
    case Total => "total"
    case Partial => "partial"
  }

  /** The two descriptions tell the modes apart. */
  lemma DescriptionIsInjective(a: SegmentMode, b: SegmentMode)
    ensures Description(a) == Description(b) <==> a == b
  {
  }

  /** Every field of a query. `conditions` and `metaConditions` hold the body of the search filter they
      were set from. */
  datatype QueryFields = QueryFields(
    moduleName: Option<string>,
    moduleIds: Option<seq<string>>,
    instanceIds: Option<seq<string>>,
    conditions: Option<map<string, Json>>,
    metaConditions: Option<map<string, Json>>,
    fields: Option<seq<string>>,
    populateFields: Option<seq<string>>,
    tags: Option<seq<Tag>>,
    pagination: Option<map<string, Json>>,
    segmentWithUser: bool,
    segmentMode: SegmentMode,
    offlinePolicy: Option<OfflinePolicy>,
    locale: Option<Locale>)

  /** A new query: nothing set, no segmentation by user, partial segment mode. */
  const EmptyQuery := QueryFields(None, None, None, None, None, None, None, None, None, false, Partial, None, None)

  /** `pagination(page:limit:)`. */
  function PageOf(page: int, limit: int): (p: map<string, Json>)
    ensures p.Keys == {"page", "limit", "skip"}
    ensures p["page"] == JNumber(page) && p["limit"] == JNumber(limit) && p["skip"] == JString("false")
  {
    map["page" := JNumber(page), "limit" := JNumber(limit), "skip" := JString("false")]
  }

  /** `skipPagination()`. */
  const SkipAll: map<string, Json> := map["skip" := JString("true")]

  /** The tags sent to segment by user: only when segmentation is on, a current user exists and that user
      has at least one tag. */
  function SegmentTags(q: QueryFields, currentUser: Option<User>): (t: Option<Json>)
    ensures t.Some? <==> q.segmentWithUser && currentUser.Some? && |currentUser.value.tags| > 0
    ensures t.Some? ==> t.value == TagsJson(currentUser.value.tags)
  {
    if q.segmentWithUser && currentUser.Some? && |currentUser.value.tags| > 0 then Some(TagsJson(currentUser.value.tags))
    else None
  }

  /** The keys `body` may hold. */
  const BodyKeys: set<string> := {"moduleIds", "moduleName", "instanceIds", "searchValues", "metaSearch", "fields",
                                  "tags", "include", "pagination", "segmentTags", "segmentMode", "locale"}

  /** What `body` writes under one key, if anything: each optional field under its own key, the segment
      tags when they apply, and the segment mode always. */
  function Entry(q: QueryFields, currentUser: Option<User>, key: string): Option<Json> {
    if key == "moduleIds" then (if q.moduleIds.Some? then Some(Strings(q.moduleIds.value)) else None)
    else if key == "moduleName" then (if q.moduleName.Some? then Some(JString(q.moduleName.value)) else None)
    else if key == "instanceIds" then (if q.instanceIds.Some? then Some(Strings(q.instanceIds.value)) else None)
    else if key == "searchValues" then (if q.conditions.Some? then Some(JObject(q.conditions.value)) else None)
    else if key == "metaSearch" then (if q.metaConditions.Some? then Some(JObject(q.metaConditions.value)) else None)
    else if key == "fields" then (if q.fields.Some? then Some(Strings(q.fields.value)) else None)
    else if key == "tags" then (if q.tags.Some? then Some(TagsJson(q.tags.value)) else None)
    else if key == "include" then (if q.populateFields.Some? then Some(Strings(q.populateFields.value)) else None)
    else if key == "pagination" then (if q.pagination.Some? then Some(JObject(q.pagination.value)) else None)
    else if key == "segmentTags" then SegmentTags(q, currentUser)
    else if key == "segmentMode" then Some(JString(Description(q.segmentMode)))
    else if key == "locale" then (if q.locale.Some? then Some(JString(q.locale.value.description)) else None)
    else None
  }

  /** `body`, for the current user of the core manager: every key whose entry is set, with that entry. */
  function BodyOf(q: QueryFields, currentUser: Option<User>): (b: map<string, Json>)
    ensures b.Keys <= BodyKeys
    ensures forall k :: k in b <==> k in BodyKeys && Entry(q, currentUser, k).Some?
    ensures forall k :: k in b ==> b[k] == Entry(q, currentUser, k).value
  {
    map k | k in BodyKeys && Entry(q, currentUser, k).Some? :: Entry(q, currentUser, k).value
  }

  /** The selection keys are in the body exactly when their options were set. */
  lemma SelectionKeysPresence(q: QueryFields, currentUser: Option<User>)
    ensures var b := BodyOf(q, currentUser);
      && ("moduleIds" in b <==> q.moduleIds.Some?)
      && ("moduleName" in b <==> q.moduleName.Some?)
      && ("instanceIds" in b <==> q.instanceIds.Some?)
      && ("searchValues" in b <==> q.conditions.Some?)
      && ("metaSearch" in b <==> q.metaConditions.Some?)
      && ("fields" in b <==> q.fields.Some?)
  {
  }

  /** The remaining keys are in the body exactly when their options were set, the segment tags exactly when
      they apply, and the segment mode always. */
  lemma ShapingKeysPresence(q: QueryFields, currentUser: Option<User>)
    ensures var b := BodyOf(q, currentUser);
      && ("tags" in b <==> q.tags.Some?)
      && ("include" in b <==> q.populateFields.Some?)
      && ("pagination" in b <==> q.pagination.Some?)
      && ("segmentTags" in b <==> q.segmentWithUser && currentUser.Some? && |currentUser.value.tags| > 0)
      && "segmentMode" in b
      && ("locale" in b <==> q.locale.Some?)
  {
    TagsAndIncludePresence(q, currentUser);
    PaginationAndSegmentPresence(q, currentUser);
  }

  lemma TagsAndIncludePresence(q: QueryFields, currentUser: Option<User>)
    ensures var b := BodyOf(q, currentUser);
      && ("tags" in b <==> q.tags.Some?)
      && ("include" in b <==> q.populateFields.Some?)
      && ("locale" in b <==> q.locale.Some?)
  {
  }

  lemma PaginationAndSegmentPresence(q: QueryFields, currentUser: Option<User>)
    ensures var b := BodyOf(q, currentUser);
      && ("pagination" in b <==> q.pagination.Some?)
      && ("segmentTags" in b <==> q.segmentWithUser && currentUser.Some? && |currentUser.value.tags| > 0)
      && "segmentMode" in b
  {
  }

  /** Each selection key present in the body carries its option: lists as arrays, filters as objects. */
  lemma SelectionValues(q: QueryFields, currentUser: Option<User>)
    ensures var b := BodyOf(q, currentUser);
      && (q.moduleIds.Some? ==> "moduleIds" in b && b["moduleIds"] == Strings(q.moduleIds.value))
      && (q.moduleName.Some? ==> "moduleName" in b && b["moduleName"] == JString(q.moduleName.value))
      && (q.instanceIds.Some? ==> "instanceIds" in b && b["instanceIds"] == Strings(q.instanceIds.value))
      && (q.conditions.Some? ==> "searchValues" in b && b["searchValues"] == JObject(q.conditions.value))
      && (q.metaConditions.Some? ==> "metaSearch" in b && b["metaSearch"] == JObject(q.metaConditions.value))
      && (q.fields.Some? ==> "fields" in b && b["fields"] == Strings(q.fields.value))
  {
  }

  /** The tags go through `Tag.toDictionary` in order, and the locale and the segment mode are sent by
      their descriptions. */
  lemma ShapingValues(q: QueryFields, currentUser: Option<User>)
    ensures var b := BodyOf(q, currentUser);
      && (q.tags.Some? ==> "tags" in b && b["tags"] == TagsJson(q.tags.value))
      && (q.populateFields.Some? ==> "include" in b && b["include"] == Strings(q.populateFields.value))
      && (q.pagination.Some? ==> "pagination" in b && b["pagination"] == JObject(q.pagination.value))
      && "segmentMode" in b && b["segmentMode"] == JString(Description(q.segmentMode))
      && (q.locale.Some? ==> "locale" in b && b["locale"] == JString(q.locale.value.description))
  {
    TagsAndIncludeValues(q, currentUser);
    PaginationAndModeValues(q, currentUser);
  }

  lemma TagsAndIncludeValues(q: QueryFields, currentUser: Option<User>)
    ensures var b := BodyOf(q, currentUser);
      && (q.tags.Some? ==> "tags" in b && b["tags"] == TagsJson(q.tags.value))
      && (q.populateFields.Some? ==> "include" in b && b["include"] == Strings(q.populateFields.value))
      && (q.locale.Some? ==> "locale" in b && b["locale"] == JString(q.locale.value.description))
  {
  }

  lemma PaginationAndModeValues(q: QueryFields, currentUser: Option<User>)
    ensures var b := BodyOf(q, currentUser);
      && (q.pagination.Some? ==> "pagination" in b && b["pagination"] == JObject(q.pagination.value))
      && "segmentMode" in b && b["segmentMode"] == JString(Description(q.segmentMode))
  {
  }

  /** A new query's body holds only the partial segment mode, whoever the current user is. */
  lemma EmptyQueryBody(currentUser: Option<User>)
    ensures BodyOf(EmptyQuery, currentUser) == map["segmentMode" := JString("partial")]
  {
    EmptyQueryEntries(currentUser);
    OnlyKey(BodyOf(EmptyQuery, currentUser), "segmentMode", JString("partial"));
  }

  lemma EmptyQueryEntries(currentUser: Option<User>)
    ensures Entry(EmptyQuery, currentUser, "segmentMode") == Some(JString("partial"))
    ensures forall k :: k != "segmentMode" ==> Entry(EmptyQuery, currentUser, k).None?
  {
  }

  /** Paginating after skipping, or skipping after paginating: the last call decides the pagination key. */
  lemma LastPaginationWins(q: QueryFields, page: int, limit: int, currentUser: Option<User>)
    ensures var b := BodyOf(q.(pagination := Some(SkipAll)).(pagination := Some(PageOf(page, limit))), currentUser);
      "pagination" in b && b["pagination"]
        == JObject(map["page" := JNumber(page), "limit" := JNumber(limit), "skip" := JString("false")])
    ensures var b := BodyOf(q.(pagination := Some(PageOf(page, limit))).(pagination := Some(SkipAll)), currentUser);
      "pagination" in b && b["pagination"] == JObject(map["skip" := JString("true")])
  {
    PaginationAndModeValues(q.(pagination := Some(PageOf(page, limit))), currentUser);
    PaginationAndModeValues(q.(pagination := Some(SkipAll)), currentUser);
  }

  /** The offline policy of a query never reaches its body. */
  lemma PolicyNotInBody(q: QueryFields, policy: Option<OfflinePolicy>, currentUser: Option<User>)
    ensures BodyOf(q.(offlinePolicy := policy), currentUser) == BodyOf(q, currentUser)
  {
    assert forall k :: Entry(q.(offlinePolicy := policy), currentUser, k) == Entry(q, currentUser, k);
  }

  /** Two queries whose entries differ at most under one key, set in the second, have bodies that differ
      only there. */
  lemma OneEntryChanged(q: QueryFields, q': QueryFields, currentUser: Option<User>, key: string)
    requires key in BodyKeys && Entry(q', currentUser, key).Some?
    requires forall k :: k != key ==> Entry(q', currentUser, k) == Entry(q, currentUser, k)
    ensures BodyOf(q', currentUser) == BodyOf(q, currentUser)[key := Entry(q', currentUser, key).value]
  {
    SameKeysElsewhere(q, q', currentUser, key);
    SameValuesElsewhere(q, q', currentUser, key);
    UpdatedAt(BodyOf(q', currentUser), BodyOf(q, currentUser), key, Entry(q', currentUser, key).value);
  }

  lemma SameKeysElsewhere(q: QueryFields, q': QueryFields, currentUser: Option<User>, key: string)
    requires forall k :: k != key ==> Entry(q', currentUser, k) == Entry(q, currentUser, k)
    ensures forall k :: k != key ==> (k in BodyOf(q', currentUser) <==> k in BodyOf(q, currentUser))
  {
  }

  lemma SameValuesElsewhere(q: QueryFields, q': QueryFields, currentUser: Option<User>, key: string)
    requires forall k :: k != key ==> Entry(q', currentUser, k) == Entry(q, currentUser, k)
    ensures forall k :: k != key && k in BodyOf(q', currentUser) ==>
      BodyOf(q', currentUser)[k] == BodyOf(q, currentUser)[k]
  {
  }

  /** Setting the module ids rewrites only their key of the body. */
  lemma SetModuleIdsTouchesOneKey(q: QueryFields, currentUser: Option<User>, ids: seq<string>)
    ensures BodyOf(q.(moduleIds := Some(ids)), currentUser) == BodyOf(q, currentUser)["moduleIds" := Strings(ids)]
  {
    OneEntryChanged(q, q.(moduleIds := Some(ids)), currentUser, "moduleIds");
  }

  /** Setting the locale rewrites only its key of the body. */
  lemma SetLocaleTouchesOneKey(q: QueryFields, currentUser: Option<User>, l: Locale)
    ensures BodyOf(q.(locale := Some(l)), currentUser) == BodyOf(q, currentUser)["locale" := JString(l.description)]
  {
    OneEntryChanged(q, q.(locale := Some(l)), currentUser, "locale");
  }

  /** Setting the pagination rewrites only its key of the body. */
  lemma SetPaginationTouchesOneKey(q: QueryFields, currentUser: Option<User>, pagination: map<string, Json>)
    ensures BodyOf(q.(pagination := Some(pagination)), currentUser) == BodyOf(q, currentUser)["pagination" := JObject(pagination)]
  {
    OneEntryChanged(q, q.(pagination := Some(pagination)), currentUser, "pagination");
  }

  /** Setting the segment mode rewrites only its key of the body. */
  lemma SetSegmentModeTouchesOneKey(q: QueryFields, currentUser: Option<User>, mode: SegmentMode)
    ensures BodyOf(q.(segmentMode := mode), currentUser) == BodyOf(q, currentUser)["segmentMode" := JString(Description(mode))]
  {
    OneEntryChanged(q, q.(segmentMode := mode), currentUser, "segmentMode");
  }

  /** Segment tags are sent exactly when segmentation by user is on and the current user has tags, and
      they are that user's tags in order. */
  lemma SegmentTagsNeedUserTags(q: QueryFields, u: User)
    ensures "segmentTags" !in BodyOf(q.(segmentWithUser := false), Some(u))
    ensures "segmentTags" !in BodyOf(q, None)
    ensures "segmentTags" !in BodyOf(q, Some(u.(tags := [])))
    ensures q.segmentWithUser && |u.tags| > 0 ==> BodyOf(q, Some(u))["segmentTags"] == TagsJson(u.tags)
  {
  }

  class SearchQuery {
    var moduleName: Option<string>
    var moduleIds: Option<seq<string>>
    var instanceIds: Option<seq<string>>
    var conditions: Option<map<string, Json>>
    var metaConditions: Option<map<string, Json>>
    var fields: Option<seq<string>>
    var populateFields: Option<seq<string>>
    var tags: Option<seq<Tag>>
    var pagination: Option<map<string, Json>>
    var segmentWithUser: bool
    var segmentMode: SegmentMode
    var offlinePolicy: Option<OfflinePolicy>
    var locale: Option<Locale>

    function Fields(): QueryFields
      reads this
    {
      QueryFields(moduleName, moduleIds, instanceIds, conditions, metaConditions, fields, populateFields, tags,
                  pagination, segmentWithUser, segmentMode, offlinePolicy, locale)
    }

    /** `body`, read with the core manager's current user. */
    function Body(currentUser: Option<User>): map<string, Json>
      reads this
    {
      BodyOf(Fields(), currentUser)
    }

    constructor ()
      ensures Fields() == EmptyQuery
    {
      moduleName := None;
      moduleIds := None;
      instanceIds := None;
      conditions := None;
      metaConditions := None;
      fields := None;
      populateFields := None;
      tags := None;
      pagination := None;
      segmentWithUser := false;
      segmentMode := Partial;
      offlinePolicy := None;
      locale := None;
    }

    /** `searchFilter(_:)`: stores the filter's body as the search values. */
    method SearchFilter(filterBody: map<string, Json>) returns (r: SearchQuery)
      modifies this
      ensures r == this && Fields() == old(Fields()).(conditions := Some(filterBody))
    {
      conditions := Some(filterBody);
      r := this;
    }

    method MetaFilter(filterBody: map<string, Json>) returns (r: SearchQuery)
      modifies this
      ensures r == this && Fields() == old(Fields()).(metaConditions := Some(filterBody))
    {
      metaConditions := Some(filterBody);
      r := this;
    }

    method SetFields(fs: seq<string>) returns (r: SearchQuery)
      modifies this
      ensures r == this && Fields() == old(Fields()).(fields := Some(fs))
    {
      fields := Some(fs);
      r := this;
    }

    method SetTags(ts: seq<Tag>) returns (r: SearchQuery)
      modifies this
      ensures r == this && Fields() == old(Fields()).(tags := Some(ts))
    {
      tags := Some(ts);
      r := this;
    }

    method SetModuleIds(ids: seq<string>) returns (r: SearchQuery)
      modifies this
      ensures r == this && Fields() == old(Fields()).(moduleIds := Some(ids))
    {
      moduleIds := Some(ids);
      r := this;
    }

    method SetModuleName(name: string) returns (r: SearchQuery)
      modifies this
      ensures r == this && Fields() == old(Fields()).(moduleName := Some(name))
    {
      moduleName := Some(name);
      r := this;
    }

    method SetInstanceIds(ids: seq<string>) returns (r: SearchQuery)
      modifies this
      ensures r == this && Fields() == old(Fields()).(instanceIds := Some(ids))
    {
      instanceIds := Some(ids);
      r := this;
    }

    method PopulateFields(fs: seq<string>) returns (r: SearchQuery)
      modifies this
      ensures r == this && Fields() == old(Fields()).(populateFields := Some(fs))
    {
      populateFields := Some(fs);
      r := this;
    }

    /** `populateAll()`: include is `["all"]`. */
    method PopulateAll() returns (r: SearchQuery)
      modifies this
      ensures r == this && Fields() == old(Fields()).(populateFields := Some(["all"]))
    {
      populateFields := Some(["all"]);
      r := this;
    }

    method SetSegmentWithUser(segment: bool) returns (r: SearchQuery)
      modifies this
      ensures r == this && Fields() == old(Fields()).(segmentWithUser := segment)
    {
      segmentWithUser := segment;
      r := this;
    }

    method SetSegmentMode(mode: SegmentMode) returns (r: SearchQuery)
      modifies this
      ensures r == this && Fields() == old(Fields()).(segmentMode := mode)
    {
      segmentMode := mode;
      r := this;
    }

    method SetLocale(l: Locale) returns (r: SearchQuery)
      modifies this
      ensures r == this && Fields() == old(Fields()).(locale := Some(l))
    {
      locale := Some(l);
      r := this;
    }

    /** `skipPagination()`: the pagination is exactly `{skip: "true"}`. */
    method SkipPagination() returns (r: SearchQuery)
      modifies this
      ensures r == this && Fields() == old(Fields()).(pagination := Some(SkipAll))
    {
      pagination := Some(map["skip" := JString("true")]);
      r := this;
    }

    /** `pagination(page:limit:)`: `{page, limit, skip: "false"}`, replacing any earlier pagination. */
    method Paginate(page: int, limit: int) returns (r: SearchQuery)
      modifies this
      ensures r == this && Fields() == old(Fields()).(pagination := Some(PageOf(page, limit)))
    {
      pagination := Some(map["page" := JNumber(page), "limit" := JNumber(limit), "skip" := JString("false")]);
      r := this;
    }

    method SetOfflinePolicy(policy: OfflinePolicy) returns (r: SearchQuery)
      modifies this
      ensures r == this && Fields() == old(Fields()).(offlinePolicy := Some(policy))
    {
      offlinePolicy := Some(policy);
      r := this;
    }
  }
}
