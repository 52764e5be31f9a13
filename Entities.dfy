/** The identity entities the core manager reconciles with the server: `User` (Source/Core/CoreManager.swift)
    and `Device` (Sources/Managers/CoreManager+Auth.swift). Their own source files are not part of this
    model; only what the core reads of them is kept: an optional server id and an ordered list of tags
    whose names are unique. */
module Entities {
  import opened Common
  import opened TagModel

  datatype User = User(id: Option<string>, tags: seq<Tag>)

  datatype Device = Device(id: Option<string>, tags: seq<Tag>)

  /** `User()` / `Device()`: not yet registered, no tags. */
  const FreshUser := User(None, [])
  const FreshDevice := Device(None, [])

  /** Tag names are unique within an owner. */
  ghost predicate UniqueNames(ts: seq<Tag>) {
    forall i, j :: 0 <= i < j < |ts| ==> ts[i].name != ts[j].name
  }

  /** The position of the tag with a given name, if any. */
  function IndexOfName(ts: seq<Tag>, name: string): (r: Option<nat>)
    ensures r.Some? ==> r.value < |ts| && ts[r.value].name == name
    ensures r.Some? ==> forall k :: 0 <= k < r.value ==> ts[k].name != name
    ensures r.None? ==> forall k :: 0 <= k < |ts| ==> ts[k].name != name
  {
    if ts == [] then None
    else if ts[0].name == name then Some(0)
    else match IndexOfName(ts[1..], name)
      case None => None
      case Some(k) => Some(k + 1)
  }

  /** The tag with a given name, if any. */
  function TagNamed(ts: seq<Tag>, name: string): Option<Tag> {
    match IndexOfName(ts, name)
    case Some(i) => Some(ts[i])
    case None => None
  }

  /** The owner carries a tag with this name and value. */
  predicate HasTag(ts: seq<Tag>, name: string, value: string) {
    TagNamed(ts, name).Some? && TagNamed(ts, name).value.value == Some(value)
  }

  /** `addSystemTag(name:value:)`: a tag whose name is already present gets the new value in place;
      otherwise the tag is appended. */
  function AddSystemTag(ts: seq<Tag>, name: string, value: string): seq<Tag> {
    match IndexOfName(ts, name)
    case Some(i) => ts[i := ts[i].(value := Some(value))]
    case None => ts + [NewTag(name, Some(value))]
  }

  /** Looking a name up only depends on the names of the tags. */
  lemma SameNamesSameIndex(a: seq<Tag>, b: seq<Tag>, name: string)
    requires |a| == |b| && forall k :: 0 <= k < |a| ==> a[k].name == b[k].name
    ensures IndexOfName(a, name) == IndexOfName(b, name)
  {
    var ia, ib := IndexOfName(a, name), IndexOfName(b, name);
    if ia.Some? && ib.Some? {
      assert b[ia.value].name == name && a[ib.value].name == name;
    }
  }

  /** Adding a tag keeps names unique, leaves the named tag (its id kept, or a new tag) carrying the new
      value, and leaves the tag of every other name as it was. */
  lemma AddSystemTagEffect(ts: seq<Tag>, name: string, value: string)
    requires UniqueNames(ts)
    ensures var r := AddSystemTag(ts, name, value);
      && UniqueNames(r)
      && TagNamed(r, name) == Some(match TagNamed(ts, name)
                                   case Some(t) => t.(value := Some(value))
                                   case None => NewTag(name, Some(value)))
      && (forall n :: n != name ==> TagNamed(r, n) == TagNamed(ts, n))
  {
    var r := AddSystemTag(ts, name, value);
    match IndexOfName(ts, name)
    case Some(i) =>
      SameNamesSameIndex(r, ts, name);
      forall n | n != name
        ensures TagNamed(r, n) == TagNamed(ts, n)
      {
        SameNamesSameIndex(r, ts, n);
      }
    case None =>
      assert r[|ts|].name == name;
      forall n | n != name
        ensures TagNamed(r, n) == TagNamed(ts, n)
      {
        var ir, it := IndexOfName(r, n), IndexOfName(ts, n);
        if it.Some? {
          assert r[it.value].name == n;
        }
        if ir.Some? {
          assert ir.value < |ts| && ts[ir.value].name == n;
        }
      }
  }

  /** One step of the system-tag setup: a name with a value to add, or a name whose value is not
      available (the step is skipped). */
  function AddSlot(ts: seq<Tag>, slot: (string, Option<string>)): seq<Tag> {
    if slot.1.Some? then AddSystemTag(ts, slot.0, slot.1.value) else ts
  }

  /** The steps run one after another, in order. */
  function AddSystemTags(ts: seq<Tag>, slots: seq<(string, Option<string>)>): seq<Tag>
    decreases |slots|
  {
    if slots == [] then ts else AddSlot(AddSystemTags(ts, slots[..|slots| - 1]), slots[|slots| - 1])
  }

  predicate DistinctNames(slots: seq<(string, Option<string>)>) {
    forall i, j :: 0 <= i < j < |slots| ==> slots[i].0 != slots[j].0
  }

  /** What one step leaves behind: its value under its name, or, when skipped, the original tag. */
  predicate SlotHolds(r: seq<Tag>, ts: seq<Tag>, slot: (string, Option<string>)) {
    if slot.1.Some? then HasTag(r, slot.0, slot.1.value) else TagNamed(r, slot.0) == TagNamed(ts, slot.0)
  }

  /** With distinct names, every step's value survives the later steps, skipped steps and names that no
      step mentions keep their original tag, and names stay unique. */
  lemma {:induction false} AddSystemTagsEffect(ts: seq<Tag>, slots: seq<(string, Option<string>)>)
    requires UniqueNames(ts) && DistinctNames(slots)
    ensures UniqueNames(AddSystemTags(ts, slots))
    ensures forall k :: 0 <= k < |slots| ==> SlotHolds(AddSystemTags(ts, slots), ts, slots[k])
    ensures forall n :: (forall k :: 0 <= k < |slots| ==> slots[k].0 != n) ==> TagNamed(AddSystemTags(ts, slots), n) == TagNamed(ts, n)
    decreases |slots|
  {
    if slots != [] {
      var init, last := slots[..|slots| - 1], slots[|slots| - 1];
      var r0 := AddSystemTags(ts, init);
      var r := AddSystemTags(ts, slots);
      AddSystemTagsEffect(ts, init);
      assert r == AddSlot(r0, last);
      if last.1.Some? {
        AddSystemTagEffect(r0, last.0, last.1.value);
      }
      forall k | 0 <= k < |slots|
        ensures SlotHolds(r, ts, slots[k])
      {
        if k < |init| {
          assert slots[k] == init[k];
          assert SlotHolds(r0, ts, init[k]);
        } else {
          assert forall j :: 0 <= j < |init| ==> init[j].0 != last.0 by {
            forall j | 0 <= j < |init| ensures init[j].0 != last.0 {
              assert init[j] == slots[j];
            }
          }
        }
      }
      forall n | forall k :: 0 <= k < |slots| ==> slots[k].0 != n
        ensures TagNamed(r, n) == TagNamed(ts, n)
      {
        assert forall j :: 0 <= j < |init| ==> init[j].0 != n by {
          forall j | 0 <= j < |init| ensures init[j].0 != n {
            assert init[j] == slots[j];
          }
        }
        assert last.0 != n;
      }
    }
  }

  /** Running one more step after a list of steps. */
  lemma AddSystemTagsSnoc(ts: seq<Tag>, slots: seq<(string, Option<string>)>, slot: (string, Option<string>))
    ensures AddSystemTags(ts, slots + [slot]) == AddSlot(AddSystemTags(ts, slots), slot)
  {
    assert (slots + [slot])[..|slots|] == slots;
  }

  /** Running two lists of steps one after the other is running their concatenation. */
  lemma {:induction false} AddSystemTagsConcat(ts: seq<Tag>, a: seq<(string, Option<string>)>, b: seq<(string, Option<string>)>)
    ensures AddSystemTags(ts, a + b) == AddSystemTags(AddSystemTags(ts, a), b)
    decreases |b|
  {
    if b == [] {
      assert a + b == a;
    } else {
      var init, last := b[..|b| - 1], b[|b| - 1];
      AddSystemTagsConcat(ts, a, init);
      assert a + b == (a + init) + [last];
      AddSystemTagsSnoc(ts, a + init, last);
    }
  }
}
