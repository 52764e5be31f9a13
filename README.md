# Halo iOS SDK core, modelled in Dafny

This project models the request-description layer of the Halo iOS SDK and the decision rules around
it:

- the fluent `Request<T>` builder and its projection to a wire request;
- the `Router` endpoint table;
- the general-content body builders: `SearchQuery`, `SearchOptions`, `SyncQuery` and
  `ContentManager.getInstances`;
- the serialisable models `Tag`, `Pocket` and `Module`;
- the response classification of the network layer;
- the cURL debug string;
- the `CoreManager` state machine: environment switching, the add-on registry and its counting
  barrier, the run-once startup, user and device configuration, registration and saving, and the
  system-tag rules.

One Dafny module stands for each source file:

| file | module | source |
|---|---|---|
| Common.dfy | `Common` | shared datatypes (`Result`, `Method`, `OfflinePolicy`, `AuthenticationMode`, JSON values, tokens) |
| TagModel.dfy | `TagModel` | Source/Model/Tag.swift |
| Entities.dfy | `Entities` | the `User` and `Device` entities and their `addSystemTag` |
| Pocket.dfy | `PocketModel` | Sources/Model/Pocket.swift |
| Router.dfy | `Routing` | Source/Networking/Router.swift |
| Request.dfy | `Requests` | Source/DataProviders/Request.swift |
| SearchQuery.dfy | `SearchQueries` | Source/GeneralContent/SearchQuery.swift |
| SearchOptions.dfy | `SearchOptionsModel` | Source/GeneralContent/SearchOptions.swift |
| SyncQuery.dfy | `SyncQueries` | Source/GeneralContent/SyncQuery.swift |
| ContentManager.dfy | `Content` | Source/GeneralContent/ContentManager.swift |
| Module.dfy | `ModuleModel` | Source/Model/Module.swift |
| ManagerModules.dfy | `ManagerModules` | Source/Core/Manager+Modules.swift |
| NetworkUser.dfy | `NetworkUser` | Source/Networking/NetworkManager+User.swift |
| NetworkModules.dfy | `NetworkModules` | Source/Networking/NetworkManager+Modules.swift |
| NetworkGeneralContent.dfy | `NetworkGeneralContent` | Source/Networking/NetworkManager+GeneralContent.swift |
| Curl.dfy | `Curl` | Sources/Extensions/NSURLRequest+cURL.swift |
| CoreManager.dfy | `Core` | Source/Core/CoreManager.swift and Sources/Managers/CoreManager+Auth.swift |

## How each part is modelled

Each part takes the form of its source.

- **Classes with methods.** Objects whose methods update their own fields become Dafny classes whose
  methods have `modifies` frames. These are `Request<T>`, `Pocket`, `SearchQuery`, `SyncQuery` and
  `CoreManager`. Their setters state the whole new state as the old state with one field replaced.
  Their loops carry invariants, for example `addHeaders`, `params`, `tags`, the header loop of
  `URLRequest`, the add-on counter and the device add-on notification.
- **Functions and lemmas.** Value types and expression code become datatypes, functions and lemmas.
  These are `Tag`, `Router`, `SearchOptions`, `Module`, the response classification and the add-on
  phases.
- **Collaborators.** What a collaborator would deliver is a parameter: the network service, the
  persistence layer, the JSON serialiser, URL resolution, Foundation's hashes and the UTF-8 decoder.
  An asynchronous callback becomes the value it would deliver. It is delivered sequentially, or not
  at all when the object that owns the callback has gone away.
- **The event trace.** `CoreManager` records every call it makes outwards (completion handlers,
  add-on hooks, delegate calls, persistence and requests) in an event trace. Its contracts state the
  trace exactly.
- **The system tags.** Their rules are proved once, over the ordered list of tag slots that
  `setupDefaultSystemTags` fills. The user and device setups are methods that add the tags one
  statement at a time and are proved to produce that list.

Three behaviours are modelled as the code writes them, not as the documentation or the surrounding
design suggests:

- `Pocket.addReference` on a key that is mapped to nil does nothing. The Swift test
  `references[key] == nil` looks only at the outer optional.
- `registerDevice` tells the device add-ons `willRegisterAddon` before the request. The add-on
  protocol also has a `willRegisterDevice` hook, which the code never calls.
- `startup` configures only the user. The device configuration and registration of
  CoreManager+Auth.swift come from a later revision, and this revision's startup never calls them.
  They are modelled as the separate operations that revision defines.

## Model

| member | source | states |
|---|---|---|
| Common.AuthorizationValue | Source/DataProviders/Request.swift:60-62 | the Authorization value is the token type, one space, then the token (the credentials form of section 4.2 of RFC 7235) |
| Common.Lower | Source/Core/CoreManager.swift:136 | lower-casing keeps the length and maps every character independently |
| Common.SetHeaderField | Source/DataProviders/Request.swift:61-65 | `setValue(_:forHTTPHeaderField:)` stores the value under the case-folded name, replacing any spelling of it, and keeps every other field |
| Common.AuthorizationFolds | Source/DataProviders/Request.swift:61 | the name "Authorization" folds to the field `authorization` |
| Common.NatToString | Source/Core/CoreManager.swift:271-275 | a decimal rendering is non-empty and made only of digits |
| TagModel.NewTag | Source/Model/Tag.swift:31-34 | `init(name:value:)` keeps name and value and leaves the id nil |
| TagModel.ToDictionary | Source/Model/Tag.swift:56-70 | `name` is always present; `id` and `value` are present exactly when set, with their values; no other key |
| TagModel.FromDictionary | Source/Model/Tag.swift:79-84 | the forced cast traps (`None`) exactly when `name` is missing or not a string; otherwise the name is the dictionary's `name` and id and value are copied when they are strings, else nil |
| TagModel.DictionaryRoundTrip | Source/Model/Tag.swift:56-84 | `fromDictionary(toDictionary(t))` does not trap and has the id, name and value of `t` |
| TagModel.Encode | Source/Model/Tag.swift:45-49 | the archive always holds the three keys id, name and value |
| TagModel.Decode | Source/Model/Tag.swift:38-43 | decoding traps (`None`) exactly when the archived name is missing or not a string; otherwise it reads the name and the optional id and value back |
| TagModel.CodingRoundTrip | Source/Model/Tag.swift:38-49 | decode(encode(t)) does not trap and preserves id, name and value |
| TagModel.IsEqual | Source/Model/Tag.swift:86-93 | a tag equals an object exactly when the object is a tag with the same name; any other type is unequal |
| TagModel.IsEqualAsWritten | Source/Model/Tag.swift:86-93 | comparing the static type of the `AnyObject?` parameter with the tag's class never succeeds, so the method as written answers false for every argument |
| TagModel.AsWrittenRejectsItself | Source/Model/Tag.swift:86-93 | as written a tag is not equal even to itself, while the intended equality holds |
| TagModel.IsEqualIsEquivalence | Source/Model/Tag.swift:86-93 | tag equality is reflexive, symmetric and transitive and ignores ids and values |
| TagModel.TagsJson | Source/GeneralContent/SearchQuery.swift:87-89 | a tag list is serialised in order, one `toDictionary` per tag |
| Entities.IndexOfName | Source/Core/CoreManager.swift:268 | the index found holds a tag of that name and no earlier tag has it |
| Entities.SameNamesSameIndex | Source/Core/CoreManager.swift:268 | lists with the same names in the same order find a name at the same index |
| Entities.AddSystemTagEffect | Source/Core/CoreManager.swift:268 | `addSystemTag` sets the value of the tag with that name, or appends a new tag; names stay unique and other names are untouched |
| Entities.AddSystemTagsEffect | Source/Core/CoreManager.swift:264-316 | after a run of `addSystemTag` calls with distinct names, each given value is present, skipped and unmentioned names keep their old tag, and names stay unique |
| Entities.AddSystemTagsSnoc | Source/Core/CoreManager.swift:264-316 | adding one more slot is one more `addSystemTag` call |
| Entities.AddSystemTagsConcat | Source/Core/CoreManager.swift:264-316 | running two slot lists in turn equals running their concatenation |
| PocketModel.IndexOf | Sources/Model/Pocket.swift:29 | `index(of:)` finds the first occurrence, and nil exactly when the value is absent |
| PocketModel.AddReferenceSpec | Sources/Model/Pocket.swift:21-34 | for any references: an absent key gets `[value]`; a listed value changes nothing; otherwise the value is appended; other keys are untouched; references without duplicates stay so |
| PocketModel.RemoveReferenceSpec | Sources/Model/Pocket.swift:37-49 | for any references: false and no change when the key is absent, nil or lacks the value; otherwise the first occurrence, at `IndexOf`, is removed, one copy is lost, and the result is true; without duplicates the value is then gone |
| PocketModel.AddThenRemove | Sources/Model/Pocket.swift:21-49 | removing a value just added to an existing list that lacked it restores the references |
| PocketModel.RemoveDropsFirstCopyOnly | Sources/Model/Pocket.swift:37-54 | a list set with a duplicate is accepted, and removing the value drops only its first copy |
| PocketModel.Dictionary | Sources/Model/Pocket.swift:61-66 | `toDictionary` has exactly the keys `references` and `data` |
| PocketModel.AsStrings | Sources/Model/Pocket.swift:71 | a JSON list read back as strings re-serialises to itself |
| PocketModel.StringsAsStrings | Sources/Model/Pocket.swift:71 | a serialised string list is read back unchanged |
| PocketModel.DictionaryRoundTrip | Sources/Model/Pocket.swift:61-75 | `fromDictionary(toDictionary())` gives back the same references and data |
| PocketModel.FromEmptyDictionary | Sources/Model/Pocket.swift:68-75 | missing keys give empty references and empty data |
| PocketModel.Pocket.constructor | Sources/Model/Pocket.swift:17-18 | a new pocket has no references and no data |
| PocketModel.Pocket.FromDictionary | Sources/Model/Pocket.swift:68-75 | `fromDictionary` builds a new pocket from the two keys |
| PocketModel.Pocket.ToDictionary | Sources/Model/Pocket.swift:61-66 | the dictionary has the two keys and reads back as this pocket's state |
| PocketModel.Pocket.AddReference | Sources/Model/Pocket.swift:21-34 | the references become the ones `AddReferenceSpec` describes; data is unchanged |
| PocketModel.Pocket.RemoveReference | Sources/Model/Pocket.swift:37-49 | result and references are the ones `RemoveReferenceSpec` describes; data is unchanged |
| PocketModel.Pocket.SetReference | Sources/Model/Pocket.swift:52-54 | only the given key's entry is replaced |
| PocketModel.Pocket.SetData | Sources/Model/Pocket.swift:57-59 | data is replaced wholesale and the references are unchanged |
| Routing.RouteMethod | Source/Networking/Router.swift:28-38 | OAuth and create-user are POST, update-user is PUT, every other case is GET |
| Routing.RoutePayload | Source/Networking/Router.swift:70-81 | Modules is sent unencoded; OAuth and instances are URL-encoded, create and update user JSON-encoded, with the case's params |
| Routing.URLRequest | Source/Networking/Router.swift:58-82 | the URL is the path resolved against the current base URL; the only header field is the folded Authorization one, present exactly when the router has a token, with its value |
| Routing.PathsAreFixed | Source/Networking/Router.swift:41-53 | each case has its fixed path, and create and update user share one |
| Routing.CreateAndUpdateDifferOnlyInMethod | Source/Networking/Router.swift:30-34 | create and update user requests differ only in their method |
| Routing.BaseURLOnlyMovesTheUrl | Source/Networking/Router.swift:59 | changing the base URL changes only the request's URL |
| Requests.ProviderFor | Source/DataProviders/Request.swift:33-41 | each offline policy selects exactly one data provider |
| Requests.ProviderForIsInjective | Source/DataProviders/Request.swift:33-41 | different policies select different providers |
| Requests.AuthorizationHeaderSpec | Source/DataProviders/Request.swift:51-66 | the fields are exactly the folded custom names plus Authorization when there is a token; without a custom Authorization of any spelling, that field is present exactly when the mode's token is and carries it; a custom header no other spelling shares is sent with its value, and of several spellings one of their values is sent, whatever the dictionary order |
| Requests.CustomAuthorizationWins | Source/DataProviders/Request.swift:60-66 | a custom header named Authorization in any case replaces the token's header |
| Requests.WithIncludeIdempotent | Source/DataProviders/Request.swift:68-70 | injecting `include` twice is the same as once |
| Requests.HashIgnoresHeadersAndAuth | Source/DataProviders/Request.swift:174-180 | the hash depends on URL, method, encoding and params only, not on headers, auth mode or tokens |
| Requests.RequestHash | Source/DataProviders/Request.swift:174-180 | the sum of the two 64-bit hashes, None exactly when it overflows `Int`, otherwise in range with the body hash recoverable from it |
| Requests.HashCanTrap | Source/DataProviders/Request.swift:174-180 | hashes of `Int.max` and 1 (or `Int.min` and -1) trap, while `Int.max` plus `Int.min` gives -1 |
| Requests.HashTrapsOnlyOnSameSigns | Source/DataProviders/Request.swift:174-180 | only two hashes of the same sign can overflow, so a request without a body (hash 0) never traps |
| Requests.JsonResult | Source/DataProviders/Request.swift:198-207 | the `try!` traps (`None`) exactly when a delivered payload is not JSON; otherwise a payload is parsed and marked not cached, and a failure passes through with its error |
| Requests.ParsedResult | Source/DataProviders/Request.swift:219-226 | parsed JSON goes through the parser and is marked not cached; a failure passes through |
| Requests.Request.constructor | Source/DataProviders/Request.swift:82-84 | a new request is GET, URL-encoded, app-authenticated, with no headers, params, retries or parser, and the manager's default policy and provider |
| Requests.Request.FromRouter | Source/DataProviders/Request.swift:86-95 | URL, method, encoding, headers and params come from the router case |
| Requests.Request.SetResponseParser | Source/DataProviders/Request.swift:97-100 | only the parser changes; the same request is returned |
| Requests.Request.SetOfflinePolicy | Source/DataProviders/Request.swift:102-105 | the policy is set and the provider becomes the one it selects; nothing else changes |
| Requests.Request.SetNumberOfRetries | Source/DataProviders/Request.swift:107-110 | only the retries change |
| Requests.Request.SetMethod | Source/DataProviders/Request.swift:112-115 | only the method changes |
| Requests.Request.SetAuthenticationMode | Source/DataProviders/Request.swift:117-120 | only the authentication mode changes |
| Requests.Request.SetParameterEncoding | Source/DataProviders/Request.swift:122-125 | only the encoding changes |
| Requests.Request.AddHeader | Source/DataProviders/Request.swift:127-130 | one header is set, overriding that key |
| Requests.Request.AddHeaders | Source/DataProviders/Request.swift:132-137 | calling `addHeader` per pair leaves the old headers overridden by the new ones |
| Requests.Request.Params | Source/DataProviders/Request.swift:139-142 | params merge with the last write winning per key; unmentioned keys keep their values |
| Requests.Request.IncludeAll | Source/DataProviders/Request.swift:144-147 | only the include flag is set |
| Requests.Request.Paginate | Source/DataProviders/Request.swift:149-153 | exactly `page` and `limit` are set |
| Requests.Request.SkipPagination | Source/DataProviders/Request.swift:156-159 | `skip` is set to "true" |
| Requests.Request.Fields | Source/DataProviders/Request.swift:161-164 | `fields` is set to the list |
| Requests.Request.Tags | Source/DataProviders/Request.swift:166-172 | every tag writes the same key, so only the last tag's JSON survives; no tags change nothing |
| Requests.Request.SetCustomHeaders | Source/DataProviders/Request.swift:64-66 | the loop sets the custom headers one by one in the dictionary's order, giving `SetFields` of that order |
| Requests.Request.URLRequest | Source/DataProviders/Request.swift:46-76 | the wire request is the projection of the builder, header names folded; `include=true` is written into the params exactly when include-all was asked for |
| Requests.Request.Hash | Source/DataProviders/Request.swift:174-180 | the hash is body hash plus URL hash of the projected request, and None (Swift's trapping `+`) exactly when that sum leaves the 64-bit `Int` range |
| Requests.Request.ResponseData | Source/DataProviders/Request.swift:182-194 | any policy other than none throws `notImplementedOfflinePolicy`; otherwise the delivery is passed on, never trapping |
| Requests.Request.Response | Source/DataProviders/Request.swift:196-211 | same error path; the request traps exactly when it is sent and its payload is not JSON; otherwise the handler gets the response and `JsonResult` of the delivery |
| Requests.Request.ResponseObject | Source/DataProviders/Request.swift:213-229 | without a parser it throws `notImplementedResponseParser` before any request; the request traps exactly when it is sent and its payload is not JSON; otherwise the parsed result is delivered |
| SearchQueries.Description | Source/GeneralContent/SearchQuery.swift:15-20 | total is "total" and partial is "partial" |
| SearchQueries.DescriptionIsInjective | Source/GeneralContent/SearchQuery.swift:15-20 | the two descriptions tell the modes apart |
| SearchQueries.PageOf | Source/GeneralContent/SearchQuery.swift:181-188 | pagination is `{page, limit, skip: "false"}` |
| SearchQueries.SegmentTags | Source/GeneralContent/SearchQuery.swift:99-105 | segment tags exist exactly when segmentation by user is on and the current user has a tag |
| SearchQueries.BodyOf | Source/GeneralContent/SearchQuery.swift:60-114 | the body holds exactly the keys whose entries are set, with those entries |
| SearchQueries.SelectionKeysPresence | Source/GeneralContent/SearchQuery.swift:63-85 | moduleIds, moduleName, instanceIds, searchValues, metaSearch and fields are present exactly when set |
| SearchQueries.ShapingKeysPresence | Source/GeneralContent/SearchQuery.swift:87-111 | tags, include, pagination and locale are present exactly when set; segment tags when they apply; segmentMode always |
| SearchQueries.SelectionValues | Source/GeneralContent/SearchQuery.swift:63-85 | the selection keys carry the values that were set |
| SearchQueries.ShapingValues | Source/GeneralContent/SearchQuery.swift:87-111 | tags are serialised in order, segmentMode is the mode's description, locale its description |
| SearchQueries.EmptyQueryBody | Source/GeneralContent/SearchQuery.swift:41-113 | a new query's body is just `segmentMode: "partial"` |
| SearchQueries.LastPaginationWins | Source/GeneralContent/SearchQuery.swift:176-188 | of `skipPagination` and `pagination(page:limit:)` the last call wins |
| SearchQueries.PolicyNotInBody | Source/GeneralContent/SearchQuery.swift:190-193 | the offline policy never reaches the body |
| SearchQueries.OneEntryChanged | Source/GeneralContent/SearchQuery.swift:60-114 | changing one option changes only its own key of the body |
| SearchQueries.SetModuleIdsTouchesOneKey | Source/GeneralContent/SearchQuery.swift:136-139 | setting module ids rewrites only `moduleIds` |
| SearchQueries.SetLocaleTouchesOneKey | Source/GeneralContent/SearchQuery.swift:171-174 | setting the locale rewrites only `locale` |
| SearchQueries.SetPaginationTouchesOneKey | Source/GeneralContent/SearchQuery.swift:176-188 | setting pagination rewrites only `pagination` |
| SearchQueries.SetSegmentModeTouchesOneKey | Source/GeneralContent/SearchQuery.swift:166-169 | setting the mode rewrites only `segmentMode` |
| SearchQueries.SegmentTagsNeedUserTags | Source/GeneralContent/SearchQuery.swift:99-105 | no segment tags without segmentation, without a user or without user tags; with them, the user's tags in order |
| SearchQueries.SearchQuery.constructor | Source/GeneralContent/SearchQuery.swift:41-53 | a new query has nothing set and partial segment mode |
| SearchQueries.SearchQuery.SearchFilter | Source/GeneralContent/SearchQuery.swift:116-119 | only the conditions change; the same query is returned |
| SearchQueries.SearchQuery.MetaFilter | Source/GeneralContent/SearchQuery.swift:121-124 | only the meta conditions change |
| SearchQueries.SearchQuery.SetFields | Source/GeneralContent/SearchQuery.swift:126-129 | only the fields change |
| SearchQueries.SearchQuery.SetTags | Source/GeneralContent/SearchQuery.swift:131-134 | only the tags change |
| SearchQueries.SearchQuery.SetModuleIds | Source/GeneralContent/SearchQuery.swift:136-139 | only the module ids change |
| SearchQueries.SearchQuery.SetModuleName | Source/GeneralContent/SearchQuery.swift:141-144 | only the module name changes |
| SearchQueries.SearchQuery.SetInstanceIds | Source/GeneralContent/SearchQuery.swift:146-149 | only the instance ids change |
| SearchQueries.SearchQuery.PopulateFields | Source/GeneralContent/SearchQuery.swift:151-154 | only the populate fields change |
| SearchQueries.SearchQuery.PopulateAll | Source/GeneralContent/SearchQuery.swift:156-159 | the populate fields become `["all"]` |
| SearchQueries.SearchQuery.SetSegmentWithUser | Source/GeneralContent/SearchQuery.swift:161-164 | only the segmentation flag changes |
| SearchQueries.SearchQuery.SetSegmentMode | Source/GeneralContent/SearchQuery.swift:166-169 | only the segment mode changes |
| SearchQueries.SearchQuery.SetLocale | Source/GeneralContent/SearchQuery.swift:171-174 | only the locale changes |
| SearchQueries.SearchQuery.SkipPagination | Source/GeneralContent/SearchQuery.swift:176-179 | pagination becomes exactly `{skip: "true"}` |
| SearchQueries.SearchQuery.Paginate | Source/GeneralContent/SearchQuery.swift:181-188 | pagination becomes `{page, limit, skip: "false"}` |
| SearchQueries.SearchQuery.SetOfflinePolicy | Source/GeneralContent/SearchQuery.swift:190-193 | only the offline policy changes |
| SearchOptionsModel.BoolDescription | Source/GeneralContent/SearchOptions.swift:134 | `skip.description` is "true" or "false" |
| SearchOptionsModel.Body | Source/GeneralContent/SearchOptions.swift:25-71 | the body holds exactly the keys whose fields are set, with those values |
| SearchOptionsModel.SelectionKeys | Source/GeneralContent/SearchOptions.swift:28-46 | moduleIds, instanceIds, searchValues, metaSearch and fields are present exactly when set, with their values |
| SearchOptionsModel.ShapingKeys | Source/GeneralContent/SearchOptions.swift:48-68 | tags, include, pagination and locale are present exactly when set; segment tags exactly when a user with tags is set |
| SearchOptionsModel.NoSegmentModeNorPolicy | Source/GeneralContent/SearchOptions.swift:25-71 | the body never holds a segment mode and ignores the offline policy |
| SearchOptionsModel.NoOptionsBody | Source/GeneralContent/SearchOptions.swift:25-73 | options with nothing set have an empty body |
| SearchOptionsModel.OneEntryChanged | Source/GeneralContent/SearchOptions.swift:25-71 | changing one field changes only its own key of the body |
| SearchOptionsModel.SetSearchFilter | Source/GeneralContent/SearchOptions.swift:75-78 | only `searchValues` changes |
| SearchOptionsModel.SetMetaFilter | Source/GeneralContent/SearchOptions.swift:80-83 | only `metaSearch` changes |
| SearchOptionsModel.SetFields | Source/GeneralContent/SearchOptions.swift:85-88 | only `fields` changes |
| SearchOptionsModel.SetTags | Source/GeneralContent/SearchOptions.swift:90-93 | only `tags` changes, serialised in order |
| SearchOptionsModel.SetModuleIds | Source/GeneralContent/SearchOptions.swift:95-98 | only `moduleIds` changes |
| SearchOptionsModel.SetInstanceIds | Source/GeneralContent/SearchOptions.swift:100-103 | only `instanceIds` changes |
| SearchOptionsModel.SetPopulateFields | Source/GeneralContent/SearchOptions.swift:105-108 | only `include` changes |
| SearchOptionsModel.PopulateAll | Source/GeneralContent/SearchOptions.swift:110-113 | `include` becomes `["all"]` |
| SearchOptionsModel.SetUser | Source/GeneralContent/SearchOptions.swift:115-118 | only `segmentTags` changes, present exactly when the user has tags |
| SearchOptionsModel.SetLocale | Source/GeneralContent/SearchOptions.swift:120-123 | only `locale` changes |
| SearchOptionsModel.SkipPagination | Source/GeneralContent/SearchOptions.swift:125-128 | pagination becomes exactly `{skip: "true"}` |
| SearchOptionsModel.SetPagination | Source/GeneralContent/SearchOptions.swift:130-137 | pagination becomes page, limit and skip as "true"/"false" |
| SearchOptionsModel.SetOfflinePolicy | Source/GeneralContent/SearchOptions.swift:139-142 | the policy is set and the body does not change |
| SyncQueries.SyncQuery.constructor | Source/GeneralContent/SyncQuery.swift:52-55 | the given module name is stored; nothing else is set |
| SyncQueries.SyncQuery.SetLocale | Source/GeneralContent/SyncQuery.swift:57-60 | the locale is set, nothing else changes, and the same query is returned |
| SyncQueries.SyncQuery.Body | Source/GeneralContent/SyncQuery.swift:26-46 | moduleName and toSync are always present; locale and fromSync exactly when set; toSync is the current time when unset |
| SyncQueries.ClockOnlyFillsUpperBound | Source/GeneralContent/SyncQuery.swift:39-43 | the clock matters only for an unset upper bound |
| SyncQueries.NewQueryBody | Source/GeneralContent/SyncQuery.swift:26-55 | a new query's body is its module name and the current time |
| Content.Effective | Source/GeneralContent/ContentManager.swift:31-39 | the options' locale, or the default one; the caller's options are otherwise untouched |
| Content.LocaleFallback | Source/GeneralContent/ContentManager.swift:39-42 | the locale sent is the options', else the default, else none; every other key is the options' own |
| Content.GetInstances | Source/GeneralContent/ContentManager.swift:26-45 | a request on the search route; its policy changes only when the options carry one; its params are the body after the locale fallback |
| Content.SyncModule | Source/GeneralContent/ContentManager.swift:47-49 | does nothing and never calls the handler |
| Content.ClearSyncedModule | Source/GeneralContent/ContentManager.swift:51-53 | does nothing and never calls the handler |
| ModuleModel.NumberAt | Source/Model/Module.swift:45 | a number is read when the key holds one, and a Bool bridges to 1 or 0; any other value reads as nil |
| ModuleModel.StringDictionary | Source/Model/Module.swift:51 | a JSON object reads as a string dictionary exactly when all its values are strings |
| ModuleModel.TagsList | Source/Model/Module.swift:51 | the tag list is read only when `tags` is a list of string dictionaries, one entry per element |
| ModuleModel.TagOf | Source/Model/Module.swift:53 | a tag entry gives a tag with its name and optional value |
| ModuleModel.Parse | Source/Model/Module.swift:44-67 | id, name and internalId are copied when well-typed (a Bool id bridges to 1 or 0); enabled and isSingle are true exactly for a true Bool or a non-zero number; one tag per entry, in order |
| ModuleModel.ParseEmpty | Source/Model/Module.swift:44-67 | an empty dictionary gives the all-default module |
| ModuleModel.WrongTypesFallBack | Source/Model/Module.swift:47-51 | a non-dictionary tag entry gives no tags; a string flag is false, a number flag is its truth, a Bool id is a number |
| ManagerModules.GetModules | Source/Core/Manager+Modules.swift:20-28 | none goes to the network; the other policies go to persistence, fetching exactly for load-and-store; nil traps |
| ManagerModules.RouteResult | Source/Core/Manager+Modules.swift:59-66 | a success goes to `success` with the modules and cached flag, a failure to `failure` with the error |
| ManagerModules.PrivateGetModules | Source/Core/Manager+Modules.swift:57-67 | dispatch on the policy, then route the delivered result; a trap calls nothing |
| ManagerModules.GetModulesWithPolicyFromObjC | Source/Core/Manager+Modules.swift:37-42 | with a policy it never traps |
| ManagerModules.GetModulesFromObjC | Source/Core/Manager+Modules.swift:50-55 | it passes nil, so it traps and calls nothing |
| ManagerModules.ExactlyOneCallback | Source/Core/Manager+Modules.swift:59-66 | with both callbacks present exactly one is called |
| NetworkUser.UserResult | Source/Networking/NetworkManager+User.swift:19-28 | a dictionary payload becomes the user with the cached flag kept; a failure passes through; any other payload calls nothing |
| NetworkUser.Respond | Source/Networking/NetworkManager+User.swift:17-29 | the `try!` around `response` traps exactly when the default policy is not network-only; otherwise the result is handled as `UserResult` |
| NetworkUser.GetUser | Source/Networking/NetworkManager+User.swift:13-33 | with an id the user is requested by id and the request traps exactly under a policy other than network-only; without one `Success(user, false)` is delivered and no request is built |
| NetworkUser.CreateUpdateRoute | Source/Networking/NetworkManager+User.swift:43-50 | update exactly when the user has an id, create otherwise, with the user's dictionary |
| NetworkUser.CreateUpdateUser | Source/Networking/NetworkManager+User.swift:41-62 | the route above; the request traps exactly under a policy other than network-only, and otherwise the response is mapped as in `getUser` |
| NetworkUser.RegistrationDecidesRoute | Source/Networking/NetworkManager+User.swift:46-50 | an id selects `SegmentationUpdateUser(id, …)`, its absence `SegmentationCreateUser(…)` |
| NetworkModules.SdkError | Source/Networking/NetworkManager+Modules.swift:37-40 | the SDK's errors have domain com.mobgen.halo and code 0 |
| NetworkModules.ParseModules | Source/Networking/NetworkManager+Modules.swift:54-56 | one module per dictionary, in order |
| NetworkModules.ModulesResponse | Source/Networking/NetworkManager+Modules.swift:21-42 | no response and non-200 give their fixed errors; 200 parses a success or passes a failure on; a released manager calls nothing |
| NetworkModules.OnlyStatus200Succeeds | Source/Networking/NetworkManager+Modules.swift:23-41 | a success is only ever delivered for status 200 |
| NetworkModules.ModulesRouteIsFixed | Source/Networking/NetworkManager+Modules.swift:21 | the request is a GET of the module path with no params |
| NetworkGeneralContent.InstancesParams | Source/Networking/NetworkManager+GeneralContent.swift:22 | the params are exactly `module` = the id and `archived` = false |
| NetworkGeneralContent.InstancesRequestShape | Source/Networking/NetworkManager+GeneralContent.swift:22 | the request is a GET with those params URL-encoded |
| NetworkGeneralContent.ParseGeneralContentInstances | Source/Networking/NetworkManager+GeneralContent.swift:52-61 | one instance per dictionary, same count and order |
| NetworkGeneralContent.Dictionaries | Source/Networking/NetworkManager+GeneralContent.swift:30 | the forced cast reads each element's dictionary, in order |
| NetworkGeneralContent.InstancesResponse | Source/Networking/NetworkManager+GeneralContent.swift:22-42 | no response and non-200 give their fixed errors; 200 parses a success or passes a failure on |
| Curl.EscapeHead | Sources/Extensions/NSURLRequest+cURL.swift:37-39 | escaping is empty exactly for the empty string and starts with a backslash exactly for a leading quote |
| Curl.EscapeRoundTrip | Sources/Extensions/NSURLRequest+cURL.swift:37-39 | unescaping an escaped string gives it back, so nothing but quotes changes |
| Curl.EscapeShape | Sources/Extensions/NSURLRequest+cURL.swift:37-39 | escaping adds one character per quote and every quote is preceded by a backslash |
| Curl.CurlRequest | Sources/Extensions/NSURLRequest+cURL.swift:13-34 | the string built step by step equals the prefix, the header segments, the body segment and the URL segment |
| Curl.StartsWithMethod | Sources/Extensions/NSURLRequest+cURL.swift:15 | the command starts with `curl -k -X <method> --dump-header -` |
| Curl.HeaderSegmentsAppend | Sources/Extensions/NSURLRequest+cURL.swift:17-21 | one escaped `-H "key: value"` segment is appended per header |
| Curl.BodySegmentIffDecodable | Sources/Extensions/NSURLRequest+cURL.swift:23-27 | a `-d` segment appears exactly when there is a body that decodes as UTF-8 |
| Curl.UrlIsLast | Sources/Extensions/NSURLRequest+cURL.swift:29-31 | with a URL, the quoted absolute URL is the last segment |
| Core.EnvironmentFromPlist | Source/Core/CoreManager.swift:135-143 | int, qa, prod and stage match without regard to case; anything else is `Custom(env)` |
| Core.EnvironmentIgnoresCase | Source/Core/CoreManager.swift:136 | spellings differing only in case name the same environment |
| Core.VersionStringShape | Source/Core/CoreManager.swift:270-275 | the version string is major.minor, with .patch only when the patch is positive |
| Core.SystemTagRules | Source/Core/CoreManager.swift:264-316 | ios, the version, Apple, BLE "true" and the lower-cased APNs mode are tagged; the test-device tag exactly in int, stage and qa; names stay unique |
| Core.Call | Source/Core/CoreManager.swift:75 | `handler?(x)` is one call when there is a handler and none otherwise |
| Core.PhaseCalls | Source/Core/CoreManager.swift:171-223 | each add-on's hook is called once, in registration order |
| Core.DeviceAddonsSpec | Sources/Managers/CoreManager+Auth.swift:113-135 | exactly the device add-ons are notified, never more than there are add-ons, and all of them when all are device add-ons |
| Core.DeviceAddonsConcat | Sources/Managers/CoreManager+Auth.swift:113-135 | the filter distributes over concatenation, so earlier registrations are notified first |
| Core.DeviceAddonsOfOne | Sources/Managers/CoreManager+Auth.swift:113-135 | one add-on is notified exactly when it is a device add-on |
| Core.HookCalls | Sources/Managers/CoreManager+Auth.swift:113-135 | one hook call per device add-on, in order |
| Core.Barrier | Source/Core/CoreManager.swift:171-196 | the counter completes once with no add-ons, or once when the callbacks reach the add-on count; failures are ignored |
| Core.FetchFailureOutcome | Sources/Managers/CoreManager+Auth.swift:30-38 | a failed fetch keeps the stored entity, reports false without system tags and true with them |
| Core.NoAddonsGoStraightToRegistration | Source/Core/CoreManager.swift:157-176 | without add-ons both barriers complete at once and the user is registered |
| Core.MissingCallbackStallsStartup | Source/Core/CoreManager.swift:188-192 | an add-on that never calls back stalls startup: no registration and no completion |
| Core.DeviceAddonsHearBeforeHandler | Sources/Managers/CoreManager+Auth.swift:119-136 | whatever the outcome, every device add-on hears `didRegisterDevice` before the handler is called |
| Core.CoreManager.constructor | Source/Core/CoreManager.swift:21-58 | production environment, network-only default offline policy, no tokens, credentials, user, device, add-ons or handler; startup not run |
| Core.CoreManager.AssignEnvironment | Source/Core/CoreManager.swift:29-35 | the router points at the environment's base URL and both tokens are cleared |
| Core.CoreManager.RegisterAddon | Source/Core/CoreManager.swift:85-89 | the add-on is appended at the end, told `willRegisterAddon` before and `didRegisterAddon` after |
| Core.CoreManager.LoadConfiguration | Source/Core/CoreManager.swift:118-146 | credentials when both strings are present, otherwise the old ones; environment from the plist string, with its base URL and no tokens; system tags enabled by a true Bool or a non-zero number |
| Core.CoreManager.ReadPlist | Source/Core/CoreManager.swift:116-146 | without a plist nothing changes; with one the credentials, environment, base URL and system-tag switch are as `LoadConfiguration` leaves them |
| Core.CoreManager.RunAddonPhase | Source/Core/CoreManager.swift:171-223 | every add-on's hook is called in order and the handler is called as `Barrier` says |
| Core.CoreManager.SetupUserSystemTags | Source/Core/CoreManager.swift:264-316 | with a user it reports true and adds the system tags; without one it reports false |
| Core.CoreManager.SetupDeviceSystemTags | Sources/Managers/CoreManager+Auth.swift:54-106 | with a device it reports true and adds the system tags; without one it reports false |
| Core.CoreManager.AddTagSteps | Source/Core/CoreManager.swift:268-309 | the one-by-one `addSystemTag` calls add exactly the system-tag slots |
| Core.CoreManager.AddPlatformTags | Source/Core/CoreManager.swift:268-285 | the platform, version and bundle tags |
| Core.CoreManager.AddHardwareTags | Source/Core/CoreManager.swift:287-309 | the manufacturer, model, type, BLE, screen, test-device and APNs tags |
| Core.CoreManager.SetEnvironment | Source/Core/CoreManager.swift:68-78 | the environment is assigned, the handler kept, the user configured; on success the user is registered, otherwise the handler gets false |
| Core.CoreManager.Startup | Source/Core/CoreManager.swift:96-169 | only the first call runs; a later one only logs a warning and its handler is never kept or called; the first call ends in the state and trace `StartupOnce` states, and leaves the default offline policy alone |
| Core.CoreManager.StartupOnce | Source/Core/CoreManager.swift:103-167 | the handler is kept and both tokens cleared; a failed network start calls the handler with false and changes nothing else; a started one reads the plist and then crashes exactly when the default offline policy is not network-only; otherwise it sends the version request and ends with the configured user, registered when both add-on barriers completed |
| Core.CoreManager.AfterNetworkStartup | Source/Core/CoreManager.swift:116-166 | the plist's credentials, environment and base URL; the crash of the version check exactly under a policy other than network-only, with no further event; otherwise the version request, then the user configured, and on failure the stored handler called with false and no add-on set up |
| Core.CoreManager.CheckNeedsUpdate | Source/Core/CoreManager.swift:461-481 | the `try!` crashes before anything is sent exactly when the default offline policy is not network-only; otherwise the version request is sent |
| Core.CoreManager.ConfigureAndBringUp | Source/Core/CoreManager.swift:153-166 | the user is configured; on success the add-ons are set up and started and the user registered, each after the previous barrier; on failure the stored handler gets false |
| Core.CoreManager.BringUpAddonsAndRegister | Source/Core/CoreManager.swift:157-161 | setup, then startup of the add-ons, then user registration, each waiting for the previous barrier |
| Core.CoreManager.ConfigureUser | Source/Core/CoreManager.swift:225-262 | a stored user with an id is fetched, otherwise a fresh user is announced to the delegate; the outcome follows the system-tag setting |
| Core.CoreManager.RegisterUser | Source/Core/CoreManager.swift:318-350 | no user reports false; otherwise store, send, and on success replace and store the user; the stored handler gets the result |
| Core.CoreManager.SaveUser | Source/Core/CoreManager.swift:357-390 | no user does nothing; a failed save leaves the user unchanged; the handler gets the response |
| Core.CoreManager.ConfigureDevice | Sources/Managers/CoreManager+Auth.swift:14-52 | a stored device with an id is fetched, otherwise a fresh device is announced to the delegate; the handler gets the outcome |
| Core.CoreManager.NotifyDeviceAddons | Sources/Managers/CoreManager+Auth.swift:113-135 | each device add-on is told the hook, in order |
| Core.CoreManager.RegisterDevice | Sources/Managers/CoreManager+Auth.swift:108-143 | no device reports false with no request; otherwise the device add-ons hear before the request and after the response, then the handler gets the result |
| Core.CoreManager.SendDevice | Sources/Managers/CoreManager+Auth.swift:110-115 | store the device, tell the device add-ons, send the request |
| Core.CoreManager.ReceiveDevice | Sources/Managers/CoreManager+Auth.swift:117-136 | on success replace and store the device; tell the device add-ons; hand the result to the handler |
| Core.CoreManager.SaveDevice | Sources/Managers/CoreManager+Auth.swift:150-183 | no device calls no handler; a failed save leaves the device unchanged |

## Findings

| source | as written | input that shows it | evidently intended | confidence | as-written member | corrected member |
|---|---|---|---|---|---|---|
| Source/Model/Tag.swift:86-93 | `isEqual` compares the static type of its `AnyObject?` parameter with the tag's class, which never match | any tag compared with itself | equal exactly when the object is a tag with the same name | medium, not executed | TagModel.IsEqualAsWritten | TagModel.IsEqual |

## Left out

- Concurrency: `dispatch_once` is a boolean guard, the `lockQueue` serialisation of `saveUser` and
  `saveDevice` is not modelled, and asynchronous callbacks are delivered one after another.
- Weakly captured `self`: whether the owner still exists when a response arrives is a boolean
  parameter (`alive`, `managerAlive`).
- Collaborators are parameters or the value they deliver. These are JSON serialisation and parsing,
  Alamofire parameter encoding, URL resolution, `NSData`/`NSURL` hashing, `startRequest`, persistence
  (`loadUser`, `storeUser`, `loadDevice`, `storeDevice`), `User.fromDictionary`/`toDictionary`,
  `GeneralContentInstance(dict)`, the UTF-8 decoder, the bundle and plist file reading, and
  `MobileProvisionParser`.
- Floating point, clocks and device queries: the screen size is a given string; `updatedAt` is kept
  as the number read, not divided into a date; `SyncQuery` timestamps are given milliseconds.
- The values of `CoreConstants` are not part of this model. The keys are a parameter, and the
  system-tag names are assumed distinct.
- The User and Device source files are not part of this model. These entities are reduced to an id
  and a tag list, and `addSystemTag` is modelled as setting the value of the tag with that name or
  appending one.
- Swift dictionaries are maps where order does not matter. A user's tag dictionary is a sequence of
  uniquely named tags, so `tags.values` has the order of that sequence.
- `SearchQuery.hash`, `frameworkVersion`, logging, the `ModuleType` part of `Module.init` and
  `authenticate` (both files) are not modelled: they are string hashing, bundle reads, logging or a
  plain forward to the network layer.
- The push-notification and app-lifecycle pass-through of CoreManager (Source/Core/CoreManager.swift:412-459)
  and `ContentManager.startup`, which is empty.
- Core.CoreManager.Startup: the add-on counter compares with the add-on count read when each callback
  arrives; the model reads it once, as add-ons are not registered during startup.
- ModuleModel.Parse: requires every tag entry to have a name, as the forced unwrap of `tag["name"]!`
  traps otherwise.
- Requests.Request.FromRouter: the router of this revision exposes headers and an encoding per case,
  which Router.swift (an older revision) does not. The endpoint's fields are therefore a parameter.
- Requests.WireHeaders: header fields are kept under their lower-cased names. Foundation matches
  field names without regard to case but keeps the first spelling it saw, so the spelling sent on the
  wire is not modelled. Only ASCII letters are folded.
- Requests.Request.Response: only the response handler's input is modelled. The handler is a
  parameter that is always present, and the JSON serialiser is a parameter function.
- Requests.Request.URLRequest: the forced unwraps `self.url!` and `tok.tokenType!`/`tok.token!` are not
  modelled as traps. A request's URL is a resolved `Url`, and a `Token` always has both its type and
  its value, so a request whose URL does not resolve or whose token lacks a field is not covered.
- Routing.URLRequest: likewise `NSURL(string:relativeToURL:)!` and the token's forced unwraps are not
  modelled as traps. The path always resolves against the base URL and tokens always have both fields.
- Core.CoreManager.CheckNeedsUpdate: the response of the version request is not modelled. It only
  logs, except that its forced cast of `iosChangeLog` traps when the server reports a minimum version
  above the SDK's without a string changelog. The server reply and the framework version come from
  outside this model.
- The delegate is always present: `managerWillSetupUser` and `managerWillSetupDevice` are recorded
  as events.
- Core.CoreManager.SetEnvironment, ConfigureUser, RegisterUser, SaveUser: their `getUser` and
  `createUpdateUser` calls (Source/Core/CoreManager.swift:230, 323, 367) are taken to be sent and to
  deliver a result. The model therefore does not carry into these four methods the `try!` trap that
  `NetworkUser.Respond` models for a default offline policy other than the network-only one. So under
  such a policy they state a sent request, a user update and a handler call where the program might
  crash instead. The reason is that CoreManager.swift passes a two-argument handler `(response, result)`,
  while Source/Networking/NetworkManager+User.swift takes a one-argument handler. The `NetworkManager`
  revision that CoreManager.swift calls is not part of this model, so whether its request runs under
  `try!` is not known here. Only `CheckNeedsUpdate`, whose request is in CoreManager.swift itself,
  carries the trap.
- NetworkUser.GetUser, CreateUpdateRoute: Source/Networking/NetworkManager+User.swift:17 and :47 use
  `SegmentationGetUser(id)` and `SegmentationUpdateUser(id, params)`. Source/Networking/Router.swift:20-26
  has no `SegmentationGetUser` and no id on `SegmentationUpdateUser`, so the user file was written against
  a later router revision that is not part of this model. Its routes are the separate datatype
  `NetworkUser.UserRoute`, which holds only the cases that file names. Their paths and encodings are not
  modelled.
