/** `SyncQuery` (Source/GeneralContent/SyncQuery.swift): the description of a module synchronisation. It
    always names its module, sends its locale and lower bound when they are set, and always sends an
    upper bound, the current time when none was set. */
module SyncQueries {
  import opened Common

  /** A point in time as the milliseconds since 1970 that `body` sends. */
  type Millis = int

  class SyncQuery {
    var locale: Option<Locale>
    var moduleName: string
    var fromSync: Option<Millis>
    var toSync: Option<Millis>

    /** `init(moduleName:)`. */
    constructor (moduleName: string)
      ensures this.moduleName == moduleName
      ensures locale == None && fromSync == None && toSync == None
    {
      this.moduleName := moduleName;
      locale := None;
      fromSync := None;
      toSync := None;
    }

    /** `locale(_:)`: sets the locale and returns the same query. */
    method SetLocale(l: Locale) returns (r: SyncQuery)
      modifies this
      ensures r == this
      ensures locale == Some(l)
      ensures moduleName == old(moduleName) && fromSync == old(fromSync) && toSync == old(toSync)
    {
      locale := Some(l);
      r := this;
    }

    /** `body`, with `now` standing for the clock reading taken when `toSync` is unset. */
    function Body(now: Millis): (b: map<string, Json>)
      reads this
      ensures b.Keys <= {"moduleName", "locale", "fromSync", "toSync"}
      ensures "moduleName" in b && b["moduleName"] == JString(moduleName)
      ensures "locale" in b <==> locale.Some?
      ensures locale.Some? ==> b["locale"] == JString(locale.value.description)
      ensures "fromSync" in b <==> fromSync.Some?
      ensures fromSync.Some? ==> b["fromSync"] == JNumber(fromSync.value)
      ensures "toSync" in b
      ensures b["toSync"] == JNumber(if toSync.Some? then toSync.value else now)
    {
      var d := map["moduleName" := JString(moduleName)];
      var d := if locale.Some? then d["locale" := JString(locale.value.description)] else d;
      var d := if fromSync.Some? then d["fromSync" := JNumber(fromSync.value)] else d;
      if toSync.Some? then d["toSync" := JNumber(toSync.value)] else d["toSync" := JNumber(now)]
    }
  }

  /** Once an upper bound is set the body no longer depends on the clock; without one, two clock readings
      give bodies that differ only in the upper bound. */
  lemma ClockOnlyFillsUpperBound(q: SyncQuery, now1: Millis, now2: Millis)
    ensures q.toSync.Some? ==> q.Body(now1) == q.Body(now2)
    ensures q.toSync.None? ==> q.Body(now2) == q.Body(now1)["toSync" := JNumber(now2)]
  {
  }

  /** A new query's body holds its module name and the current time as upper bound, and nothing else. */
  method NewQueryBody(moduleName: string, now: Millis) returns (b: map<string, Json>)
    ensures b == map["moduleName" := JString(moduleName), "toSync" := JNumber(now)]
  {
    var q := new SyncQuery(moduleName);
    b := q.Body(now);
  }
}
