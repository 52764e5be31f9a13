/** `CoreManager` (Source/Core/CoreManager.swift, with the device half in Sources/Managers/CoreManager+Auth.swift):
    the SDK's state machine. It owns the environment (and through it the router's base URL and tokens),
    the registered add-ons, the configuration read from the plist, and the user and device it reconciles
    with the server. Every call it makes outwards (completion handlers, add-on hooks, requests, local
    storage) is appended to an event trace; what the collaborators deliver is a parameter, and callbacks
    are delivered one after another. */
module Core {
  import opened Common
  import opened TagModel
  import opened Entities
  import Routing

  /** `HaloEnvironment`, in the revision that has custom environments. */
  datatype HaloEnvironment = Int | QA | Stage | Prod | Custom(name: string)

  /** The environments whose installations are tagged as test devices. */
  predicate IsTestEnvironment(env: HaloEnvironment) {
    env == Int || env == Stage || env == QA
  }

  /** The plist's environment string, matched without regard to case; any other string names a custom
      environment, kept as written. */
  function EnvironmentFromPlist(env: string): (r: HaloEnvironment)
    ensures r == Int <==> Lower(env) == "int"
    ensures r == QA <==> Lower(env) == "qa"
    ensures r == Prod <==> Lower(env) == "prod"
    ensures r == Stage <==> Lower(env) == "stage"
    ensures r.Custom? ==> r.name == env
  {
    var l := Lower(env);
    if l == "int" then Int
    else if l == "qa" then QA
    else if l == "prod" then Prod
    else if l == "stage" then Stage
    else Custom(env)
  }

  /** Spellings that differ only in case name the same environment; a custom name keeps its spelling. */
  lemma EnvironmentIgnoresCase(a: string, b: string)
    requires Lower(a) == Lower(b)
    ensures EnvironmentFromPlist(a).Custom? <==> EnvironmentFromPlist(b).Custom?
    ensures !EnvironmentFromPlist(a).Custom? ==> EnvironmentFromPlist(a) == EnvironmentFromPlist(b)
    ensures EnvironmentFromPlist(a).Custom? ==> EnvironmentFromPlist(a) == Custom(a) && EnvironmentFromPlist(b) == Custom(b)
  {
    var e := EnvironmentFromPlist(a);
    if !e.Custom? {
      assert e == Int || e == QA || e == Prod || e == Stage;
    }
  }

  /** The keys of `CoreConstants`: where the plist keeps each setting, and the names of the system tags.
      Their values belong to a file that is not part of this model. */
  datatype Constants = Constants(
    clientIdKey: string,
    clientSecretKey: string,
    usernameKey: string,
    passwordKey: string,
    environmentSettingKey: string,
    enableSystemTagsKey: string,
    tagPlatformNameKey: string,
    tagPlatformVersionKey: string,
    tagApplicationNameKey: string,
    tagApplicationVersionKey: string,
    tagDeviceManufacturerKey: string,
    tagDeviceModelKey: string,
    tagDeviceTypeKey: string,
    tagBLESupportKey: string,
    tagDeviceScreenSizeKey: string,
    tagTestDeviceKey: string)

  /** `Credentials(clientId:clientSecret:)` and `Credentials(username:password:)`. */
  datatype Credentials =
    | ClientCredentials(clientId: string, clientSecret: string)
    | PasswordCredentials(username: string, password: string)

  /** What the platform reports: the OS version, the bundle's name and version when present, the device
      model and type, the screen size already formatted as `<width>x<height>`, and the release mode of the
      provisioning profile. */
  datatype SystemInfo = SystemInfo(
    osMajor: nat,
    osMinor: nat,
    osPatch: nat,
    appName: Option<string>,
    appVersion: Option<string>,
    modelName: string,
    deviceType: string,
    screenSize: string,
    releaseMode: string)

  /** The platform version tag: `major.minor`, with `.patch` only when the patch number is positive. */
  function VersionString(major: nat, minor: nat, patch: nat): string {
    NatToString(major) + "." + NatToString(minor) + (if patch > 0 then "." + NatToString(patch) else "")
  }

  function DotCount(s: string): nat {
    if s == [] then 0 else (if s[0] == '.' then 1 else 0) + DotCount(s[1..])
  }

  lemma {:induction false} DotCountAppend(a: string, b: string)
    ensures DotCount(a + b) == DotCount(a) + DotCount(b)
    decreases |a|
  {
    if a == [] {
      assert a + b == b;
    } else {
      var ab := a + b;
      assert ab != [] && ab[0] == a[0] && ab[1..] == a[1..] + b;
      DotCountAppend(a[1..], b);
      assert DotCount(ab) == (if a[0] == '.' then 1 else 0) + DotCount(a[1..] + b);
    }
  }

  lemma {:induction false} DigitsHaveNoDots(s: string)
    requires forall i :: 0 <= i < |s| ==> '0' <= s[i] <= '9'
    ensures DotCount(s) == 0
    decreases |s|
  {
    if s != [] {
      DigitsHaveNoDots(s[1..]);
    }
  }

  /** The version string has two components, or three exactly when the patch number is positive, and the
      patch number only ever extends the two-component form. */
  lemma VersionStringShape(major: nat, minor: nat, patch: nat)
    ensures DotCount(VersionString(major, minor, patch)) == if patch > 0 then 2 else 1
    ensures VersionString(major, minor, 0) <= VersionString(major, minor, patch)
  {
    var a, b, c := NatToString(major), NatToString(minor), NatToString(patch);
    DigitsHaveNoDots(a);
    DigitsHaveNoDots(b);
    DigitsHaveNoDots(c);
    DotCountAppend(a, ".");
    DotCountAppend(a + ".", b);
    var tail := if patch > 0 then "." + c else "";
    DotCountAppend(".", c);
    DotCountAppend(a + "." + b, tail);
    assert VersionString(major, minor, patch) == (a + "." + b) + tail;
    assert VersionString(major, minor, 0) == a + "." + b;
  }

  /** The system tags in the order `setupDefaultSystemTags` adds them. A step without a value (no bundle
      name, no bundle version, not a test environment) adds nothing. */
  function SystemTagSlots(c: Constants, env: HaloEnvironment, info: SystemInfo): seq<(string, Option<string>)> {
    PlatformSlots(c, info) + HardwareSlots(c, env, info)
  }

  function PlatformSlots(c: Constants, info: SystemInfo): seq<(string, Option<string>)> {
    [ (c.tagPlatformNameKey, Some("ios")),
      (c.tagPlatformVersionKey, Some(VersionString(info.osMajor, info.osMinor, info.osPatch))),
      (c.tagApplicationNameKey, info.appName),
      (c.tagApplicationVersionKey, info.appVersion) ]
  }

  function HardwareSlots(c: Constants, env: HaloEnvironment, info: SystemInfo): seq<(string, Option<string>)> {
    [ (c.tagDeviceManufacturerKey, Some("Apple")),
      (c.tagDeviceModelKey, Some(info.modelName)),
      (c.tagDeviceTypeKey, Some(info.deviceType)),
      (c.tagBLESupportKey, Some("true")),
      (c.tagDeviceScreenSizeKey, Some(info.screenSize)),
      (c.tagTestDeviceKey, if IsTestEnvironment(env) then Some("true") else None),
      ("apns", Some(Lower(info.releaseMode))) ]
  }

  /** The names of the system tags, which the SDK's constants keep apart. */
  function SystemTagNames(c: Constants): seq<string> {
    [ c.tagPlatformNameKey, c.tagPlatformVersionKey, c.tagApplicationNameKey, c.tagApplicationVersionKey,
      c.tagDeviceManufacturerKey, c.tagDeviceModelKey, c.tagDeviceTypeKey, c.tagBLESupportKey,
      c.tagDeviceScreenSizeKey, c.tagTestDeviceKey, "apns" ]
  }

  predicate DistinctTagNames(c: Constants) {
    forall i, j :: 0 <= i < j < |SystemTagNames(c)| ==> SystemTagNames(c)[i] != SystemTagNames(c)[j]
  }

  /** The system-tag rules: after the setup the owner is tagged as an iOS platform with its version,
      made by Apple, supporting BLE, with its APNs mode in lower case; as a test device exactly in the
      integration, stage and QA environments (elsewhere its test-device tag is left as it was); with the
      bundle name only when the bundle has one; and tag names stay unique. */
  lemma SystemTagRules(c: Constants, env: HaloEnvironment, info: SystemInfo, ts: seq<Tag>)
    requires UniqueNames(ts) && DistinctTagNames(c)
    ensures var r := AddSystemTags(ts, SystemTagSlots(c, env, info));
      && UniqueNames(r)
      && HasTag(r, c.tagPlatformNameKey, "ios")
      && HasTag(r, c.tagPlatformVersionKey, VersionString(info.osMajor, info.osMinor, info.osPatch))
      && HasTag(r, c.tagDeviceManufacturerKey, "Apple")
      && HasTag(r, c.tagBLESupportKey, "true")
      && HasTag(r, "apns", Lower(info.releaseMode))
      && (IsTestEnvironment(env) ==> HasTag(r, c.tagTestDeviceKey, "true"))
      && (!IsTestEnvironment(env) ==> TagNamed(r, c.tagTestDeviceKey) == TagNamed(ts, c.tagTestDeviceKey))
      && (info.appName.Some? ==> HasTag(r, c.tagApplicationNameKey, info.appName.value))
      && (info.appName.None? ==> TagNamed(r, c.tagApplicationNameKey) == TagNamed(ts, c.tagApplicationNameKey))
  {
    var slots := SystemTagSlots(c, env, info);
    var names := SystemTagNames(c);
    assert forall i :: 0 <= i < |slots| ==> slots[i].0 == names[i];
    assert DistinctNames(slots);
    AddSystemTagsEffect(ts, slots);
    var r := AddSystemTags(ts, slots);
    assert SlotHolds(r, ts, slots[0]);
    assert SlotHolds(r, ts, slots[1]);
    assert SlotHolds(r, ts, slots[2]);
    assert SlotHolds(r, ts, slots[4]);
    assert SlotHolds(r, ts, slots[7]);
    assert SlotHolds(r, ts, slots[9]);
    assert SlotHolds(r, ts, slots[10]);
  }

  /** The add-on contract, reduced to what the core reads of an add-on. */
  datatype Addon = Addon(name: string, isDeviceAddon: bool)

  /** The two add-on phases of the startup. */
  datatype Phase = SetupPhase | StartupPhase

  /** The two hooks `registerDevice` calls on device add-ons. */
  datatype DeviceHook = BeforeRegistration | AfterRegistration

  /** A completion handler, told apart by an identity of its own. */
  type HandlerId = nat

  /** A call the manager makes outwards. */
  datatype Event =
    | Completed(handler: HandlerId, success: bool)
    | StartupWarning
    | WillRegisterAddon(addon: Addon)
    | DidRegisterAddon(addon: Addon)
    | AddonCalled(phase: Phase, addon: Addon)
    | DidRegisterDevice(addon: Addon)
    | WillSetupUser(user: User)
    | WillSetupDevice(device: Device)
    | GetUserSent(user: User)
    | GetDeviceSent(device: Device)
    | CreateUpdateUserSent(user: User)
    | CreateUpdateDeviceSent(device: Device)
    | UserStored(user: User, env: HaloEnvironment)
    | DeviceStored(device: Device, env: HaloEnvironment)
    | UserSaved(handler: HandlerId, userResult: Result<Option<User>>)
    | DeviceSaved(handler: HandlerId, deviceResult: Result<Option<Device>>)
    /** `checkNeedsUpdate`'s request of `/api/authentication/version` with `current=true`. */
    | VersionCheckSent

  /** `handler?(success)`: the call happens only when there is a handler. */
  function Call(handler: Option<HandlerId>, success: bool): (es: seq<Event>)
    ensures |es| <= 1
    ensures es != [] <==> handler.Some?
    ensures handler.Some? ==> es == [Completed(handler.value, success)]
  {
    if handler.Some? then [Completed(handler.value, success)] else []
  }

  /** One call of the phase's hook per add-on, in registration order. */
  function PhaseCalls(addons: seq<Addon>, phase: Phase): (es: seq<Event>)
    ensures |es| == |addons|
    ensures forall i :: 0 <= i < |addons| ==> es[i] == AddonCalled(phase, addons[i])
  {
    seq(|addons|, i requires 0 <= i < |addons| => AddonCalled(phase, addons[i]))
  }

  /** `addons.forEach { ($0 as? DeviceAddon)?... }`: the add-ons that are device add-ons, in order. */
  function DeviceAddons(addons: seq<Addon>): seq<Addon>
    decreases |addons|
  {
    if addons == [] then []
    else DeviceAddons(addons[..|addons| - 1]) + (if addons[|addons| - 1].isDeviceAddon then [addons[|addons| - 1]] else [])
  }

  /** Exactly the device add-ons are notified, each in the order it was registered. */
  lemma {:induction false} DeviceAddonsSpec(addons: seq<Addon>)
    ensures forall a :: a in DeviceAddons(addons) <==> a in addons && a.isDeviceAddon
    ensures |DeviceAddons(addons)| <= |addons|
    ensures (forall i :: 0 <= i < |addons| ==> addons[i].isDeviceAddon) ==> DeviceAddons(addons) == addons
    decreases |addons|
  {
    if addons != [] {
      var init := addons[..|addons| - 1];
      DeviceAddonsSpec(init);
      assert addons == init + [addons[|addons| - 1]];
    }
  }

  /** A single add-on is notified exactly when it is a device add-on. */
  lemma DeviceAddonsOfOne(a: Addon)
    ensures DeviceAddons([a]) == (if a.isDeviceAddon then [a] else [])
  {
    assert [a][..0] == [];
  }

  /** Filtering distributes over concatenation: the add-ons registered first are notified first, so
      together with the one-element case the notified add-ons keep the registration order. */
  lemma {:induction false} DeviceAddonsConcat(a: seq<Addon>, b: seq<Addon>)
    ensures DeviceAddons(a + b) == DeviceAddons(a) + DeviceAddons(b)
    decreases |b|
  {
    if b == [] {
      assert a + b == a;
    } else {
      var init := b[..|b| - 1];
      DeviceAddonsConcat(a, init);
      assert (a + b)[..|a + b| - 1] == a + init;
      assert (a + b)[|a + b| - 1] == b[|b| - 1];
    }
  }

  function HookEvent(hook: DeviceHook, a: Addon): Event {
    if hook == BeforeRegistration then WillRegisterAddon(a) else DidRegisterDevice(a)
  }

  function HookCalls(addons: seq<Addon>, hook: DeviceHook): (es: seq<Event>)
    ensures |es| == |addons|
    ensures forall i :: 0 <= i < |addons| ==> es[i] == HookEvent(hook, addons[i])
  {
    seq(|addons|, i requires 0 <= i < |addons| => HookEvent(hook, addons[i]))
  }

  /** A counting barrier completes when as many callbacks as there are participants have arrived,
      or at once when there are none. */
  predicate Fires(count: nat, arrived: nat) {
    count == 0 || arrived >= count
  }

  /** The counter of `setupAddons` / `startupAddons`: with no add-ons the handler is called with true at
      once; otherwise every callback, successful or not, increments the counter, and the handler is called
      with true when the counter reaches the number of add-ons. The result is how many times the handler
      is called: once if the barrier completes, never otherwise, whatever the callbacks report. */
  method Barrier(count: nat, callbacks: seq<bool>) returns (calls: nat)
    ensures calls == if Fires(count, |callbacks|) then 1 else 0
  {
    if count == 0 {
      return 1;
    }
    var counter := 0;
    calls := 0;
    var i := 0;
    while i < |callbacks|
      invariant 0 <= i <= |callbacks|
      invariant counter == i
      invariant calls == if counter >= count then 1 else 0
    {
      counter := counter + 1;
      if counter == count {
        calls := calls + 1;
      }
      i := i + 1;
    }
  }

  /** The outcome of the lookup step of `configureUser` / `configureDevice`: a stored entity with a
      server id is fetched, and replaced by what the server returns, or kept when the fetch fails;
      without a stored entity or without an id a fresh one takes its place. */
  function LookedUp<E>(stored: Option<E>, registered: bool, fetched: Result<Option<E>>, blank: E): Option<E> {
    if stored.Some? && registered then (if fetched.Success? then fetched.value else stored)
    else Some(blank)
  }

  /** What the configure step reports: with system tags enabled, whether there is an entity to tag; without
      them, false only when the fetch failed. */
  predicate ConfigureReports<E>(stored: Option<E>, registered: bool, fetched: Result<Option<E>>, blank: E, systemTags: bool) {
    if systemTags then LookedUp(stored, registered, fetched, blank).Some?
    else !(stored.Some? && registered) || fetched.Success?
  }

  /** A failed fetch keeps the stored entity; it is reported as a failure when system tags are disabled,
      but the setup carries on to the system tags, and so to success, when they are enabled. A fresh
      entity is always reported as a success. */
  lemma FetchFailureOutcome<E>(stored: E, e: Error, blank: E)
    ensures LookedUp(Some(stored), true, Failure(e), blank) == Some(stored)
    ensures !ConfigureReports(Some(stored), true, Failure(e), blank, false)
    ensures ConfigureReports(Some(stored), true, Failure(e), blank, true)
    ensures forall st: Option<E>, f: Result<Option<E>>, tags: bool ::
      ConfigureReports(st, false, f, blank, tags) && LookedUp(st, false, f, blank) == Some(blank)
  {
  }

  function UserRegistered(u: Option<User>): bool {
    u.Some? && u.value.id.Some?
  }

  function DeviceRegistered(d: Option<Device>): bool {
    d.Some? && d.value.id.Some?
  }

  /** The call `configureUser` makes before any result: a fetch of the stored user, or the delegate told
      about the fresh user. */
  function UserLookupEvents(stored: Option<User>): seq<Event> {
    if UserRegistered(stored) then [GetUserSent(stored.value)] else [WillSetupUser(FreshUser)]
  }

  function DeviceLookupEvents(stored: Option<Device>): seq<Event> {
    if DeviceRegistered(stored) then [GetDeviceSent(stored.value)] else [WillSetupDevice(FreshDevice)]
  }

  /** What `registerUser` does outwards when there is a user `u`: store it, send it; when the response
      finds the manager alive, store the returned user if there is one and call the completion handler. */
  function UserRegistrationEvents(u: User, env: HaloEnvironment, saved: Result<Option<User>>, alive: bool,
                                  handler: Option<HandlerId>): seq<Event> {
    [UserStored(u, env), CreateUpdateUserSent(u)]
    + (if !alive then []
       else (if saved.Success? && saved.value.Some? then [UserStored(saved.value.value, env)] else [])
            + Call(handler, saved.Success?))
  }

  /** The environment after the plist has been read: the one it names, if it names one. */
  function PlistEnvironment(current: HaloEnvironment, plist: Option<map<string, Json>>, c: Constants): HaloEnvironment {
    if plist.Some? && StringAt(plist.value, c.environmentSettingKey).Some?
    then EnvironmentFromPlist(StringAt(plist.value, c.environmentSettingKey).value)
    else current
  }

  /** The app credentials after the plist has been read: the client id and secret it holds, if it holds
      both, otherwise the current ones. */
  function PlistAppCredentials(current: Option<Credentials>, plist: Option<map<string, Json>>, c: Constants): Option<Credentials> {
    if plist.Some? && StringAt(plist.value, c.clientIdKey).Some? && StringAt(plist.value, c.clientSecretKey).Some?
    then Some(ClientCredentials(StringAt(plist.value, c.clientIdKey).value, StringAt(plist.value, c.clientSecretKey).value))
    else current
  }

  /** The user credentials after the plist has been read: its username and password, if it holds both,
      otherwise the current ones. */
  function PlistUserCredentials(current: Option<Credentials>, plist: Option<map<string, Json>>, c: Constants): Option<Credentials> {
    if plist.Some? && StringAt(plist.value, c.usernameKey).Some? && StringAt(plist.value, c.passwordKey).Some?
    then Some(PasswordCredentials(StringAt(plist.value, c.usernameKey).value, StringAt(plist.value, c.passwordKey).value))
    else current
  }

  /** The router's base URL after the plist has been read: that of the environment the plist names,
      set by the environment's observer, or the current one when it names none. */
  function PlistBaseURL(current: string, plist: Option<map<string, Json>>, c: Constants,
                        baseUrlOf: HaloEnvironment -> string): string {
    if plist.Some? && StringAt(plist.value, c.environmentSettingKey).Some?
    then baseUrlOf(EnvironmentFromPlist(StringAt(plist.value, c.environmentSettingKey).value))
    else current
  }

  /** The user once the startup has run: the configured user, replaced by the server's answer when the
      configuration succeeded and both add-on barriers completed, so that the user was registered. */
  function StartedUser(configured: bool, configuredUser: Option<User>, addons: seq<Addon>,
                       setupCallbacks: seq<bool>, startupCallbacks: seq<bool>, saved: Result<Option<User>>, alive: bool): Option<User> {
    if configured && Fires(|addons|, |setupCallbacks|) && Fires(|addons|, |startupCallbacks|)
    then RegisteredUser(configuredUser, saved, alive)
    else configuredUser
  }

  /** The user with the system tags added, when there is one. */
  function WithUserTags(u: Option<User>, slots: seq<(string, Option<string>)>): Option<User> {
    if u.Some? then Some(u.value.(tags := AddSystemTags(u.value.tags, slots))) else None
  }

  function WithDeviceTags(d: Option<Device>, slots: seq<(string, Option<string>)>): Option<Device> {
    if d.Some? then Some(d.value.(tags := AddSystemTags(d.value.tags, slots))) else None
  }

  /** The user `configureUser` leaves behind. */
  function ConfiguredUser(stored: Option<User>, fetched: Result<Option<User>>, systemTags: bool,
                          slots: seq<(string, Option<string>)>): Option<User> {
    var base := LookedUp(stored, UserRegistered(stored), fetched, FreshUser);
    if systemTags then WithUserTags(base, slots) else base
  }

  /** The device `configureDevice` leaves behind. */
  function ConfiguredDevice(stored: Option<Device>, fetched: Result<Option<Device>>, systemTags: bool,
                            slots: seq<(string, Option<string>)>): Option<Device> {
    var base := LookedUp(stored, DeviceRegistered(stored), fetched, FreshDevice);
    if systemTags then WithDeviceTags(base, slots) else base
  }

  /** What `registerUser` does outwards, with or without a user. */
  function RegistrationOutcome(u: Option<User>, env: HaloEnvironment, saved: Result<Option<User>>, alive: bool,
                               handler: Option<HandlerId>): seq<Event> {
    if u.Some? then UserRegistrationEvents(u.value, env, saved, alive, handler) else Call(handler, false)
  }

  /** The user after `registerUser`: replaced by the server's answer on success, if the manager is still
      there to receive it. */
  function RegisteredUser(u: Option<User>, saved: Result<Option<User>>, alive: bool): Option<User> {
    if u.Some? && alive && saved.Success? then saved.value else u
  }

  /** The startup after a successful user configuration: the add-ons are set up; once that barrier
      completes they are started; once that one completes the user is registered. */
  function AfterConfigure(addons: seq<Addon>, setupCallbacks: seq<bool>, startupCallbacks: seq<bool>, u: Option<User>,
                          env: HaloEnvironment, saved: Result<Option<User>>, alive: bool, handler: Option<HandlerId>): seq<Event> {
    PhaseCalls(addons, SetupPhase)
    + (if !Fires(|addons|, |setupCallbacks|) then []
       else PhaseCalls(addons, StartupPhase)
            + (if !Fires(|addons|, |startupCallbacks|) then [] else RegistrationOutcome(u, env, saved, alive, handler)))
  }

  /** Without add-ons both barriers complete at once and the startup goes straight to registration. */
  lemma NoAddonsGoStraightToRegistration(setupCallbacks: seq<bool>, startupCallbacks: seq<bool>, u: Option<User>,
                                         env: HaloEnvironment, saved: Result<Option<User>>, alive: bool, handler: Option<HandlerId>)
    ensures AfterConfigure([], setupCallbacks, startupCallbacks, u, env, saved, alive, handler)
            == RegistrationOutcome(u, env, saved, alive, handler)
  {
    assert PhaseCalls([], SetupPhase) == [] && PhaseCalls([], StartupPhase) == [];
  }

  /** An add-on that never calls back stalls the startup: the user is not registered and the completion
      handler is never called; failures reported by add-ons do not stall it. */
  lemma MissingCallbackStallsStartup(addons: seq<Addon>, setupCallbacks: seq<bool>, startupCallbacks: seq<bool>, u: Option<User>,
                                     env: HaloEnvironment, saved: Result<Option<User>>, alive: bool, handler: Option<HandlerId>)
    requires |setupCallbacks| < |addons|
    ensures var es := AfterConfigure(addons, setupCallbacks, startupCallbacks, u, env, saved, alive, handler);
      es == PhaseCalls(addons, SetupPhase) && forall e :: e in es ==> e.AddonCalled?
    ensures |addons| <= |startupCallbacks| ==>
      var allFailed := seq(|addons|, i => false);
      AfterConfigure(addons, allFailed, startupCallbacks, u, env, saved, alive, handler)
        == PhaseCalls(addons, SetupPhase) + PhaseCalls(addons, StartupPhase) + RegistrationOutcome(u, env, saved, alive, handler)
  {
  }

  /** What `registerDevice` does outwards when there is a device `d`: store it, tell the device add-ons
      (`ds`) it is about to be registered, send it; when the response finds the manager alive, what
      `DeviceResponseEvents` says. */
  function DeviceRegistrationEvents(d: Device, env: HaloEnvironment, ds: seq<Addon>, saved: Result<Option<Device>>,
                                    alive: bool, handler: Option<HandlerId>): seq<Event> {
    DeviceRequestEvents(d, env, ds) + (if alive then DeviceResponseEvents(env, ds, saved, handler) else [])
  }

  function DeviceRequestEvents(d: Device, env: HaloEnvironment, ds: seq<Addon>): seq<Event> {
    [DeviceStored(d, env)] + HookCalls(ds, BeforeRegistration) + [CreateUpdateDeviceSent(d)]
  }

  /** Store the returned device if there is one, tell the device add-ons, call the handler. */
  function DeviceResponseEvents(env: HaloEnvironment, ds: seq<Addon>, saved: Result<Option<Device>>,
                                handler: Option<HandlerId>): seq<Event> {
    (if saved.Success? && saved.value.Some? then [DeviceStored(saved.value.value, env)] else [])
    + HookCalls(ds, AfterRegistration) + Call(handler, saved.Success?)
  }

  lemma Regroup<X>(a: seq<X>, b: seq<X>, c: seq<X>, d: seq<X>)
    ensures ((a + b) + c) + d == a + ((b + c) + d)
  {
  }

  lemma Regroup3<X>(a: seq<X>, b: seq<X>, c: seq<X>)
    ensures (a + b) + c == a + (b + c)
  {
  }

  lemma HookCallsMention(ds: seq<Addon>, hook: DeviceHook, a: Addon)
    requires a in ds
    ensures HookEvent(hook, a) in HookCalls(ds, hook)
  {
    var i :| 0 <= i < |ds| && ds[i] == a;
    assert HookCalls(ds, hook)[i] == HookEvent(hook, a);
  }

  /** Whatever the outcome, every device add-on hears about the registration before the handler is
      called, and the handler gets true exactly when the request succeeded. */
  lemma DeviceAddonsHearBeforeHandler(d: Device, env: HaloEnvironment, addons: seq<Addon>, saved: Result<Option<Device>>,
                                      handler: HandlerId)
    ensures var es := DeviceRegistrationEvents(d, env, DeviceAddons(addons), saved, true, Some(handler));
      && es[|es| - 1] == Completed(handler, saved.Success?)
      && forall a :: a in addons && a.isDeviceAddon ==> DidRegisterDevice(a) in es[..|es| - 1] && WillRegisterAddon(a) in es
  {
    var ds := DeviceAddons(addons);
    DeviceAddonsSpec(addons);
    var stored := if saved.Success? && saved.value.Some? then [DeviceStored(saved.value.value, env)] else [];
    var request := DeviceRequestEvents(d, env, ds);
    var after := HookCalls(ds, AfterRegistration);
    var last := [Completed(handler, saved.Success?)];
    var es := DeviceRegistrationEvents(d, env, ds, saved, true, Some(handler));
    Regroup(request, stored, after, last);
    var body := request + stored + after;
    assert es == body + last;
    assert es[..|es| - 1] == body;
    forall a | a in addons && a.isDeviceAddon
      ensures DidRegisterDevice(a) in body && WillRegisterAddon(a) in es
    {
      HookCallsMention(ds, AfterRegistration, a);
      HookCallsMention(ds, BeforeRegistration, a);
      assert WillRegisterAddon(a) in request;
    }
  }

  /** What the user lookup and the server deliver. `stored` is what local storage holds for the
      environment, `fetched` what `getUser` delivers, `saved` what `createUpdateUser` delivers, and
      `alive` whether the manager still exists when that last response arrives. */
  datatype UserServer = UserServer(stored: Option<User>, fetched: Result<Option<User>>, saved: Result<Option<User>>, alive: bool)

  /** The manager's fields other than the event trace. */
  datatype ManagerState = ManagerState(
    environment: HaloEnvironment,
    baseURL: string,
    appToken: Option<Token>,
    userToken: Option<Token>,
    startupDone: bool,
    completionHandler: Option<HandlerId>,
    defaultOfflinePolicy: OfflinePolicy,
    appCredentials: Option<Credentials>,
    userCredentials: Option<Credentials>,
    enableSystemTags: bool,
    user: Option<User>,
    device: Option<Device>,
    addons: seq<Addon>)

  class CoreManager {
    const constants: Constants
    /** `environment.baseUrl`. */
    const baseUrlOf: HaloEnvironment -> string

    var environment: HaloEnvironment
    /** `Router.baseURL`, `Router.appToken` and `Router.userToken`: the router's static state, which
        only the manager writes. */
    var baseURL: string
    var appToken: Option<Token>
    var userToken: Option<Token>
    /** The run-once token of `startup`. */
    var startupDone: bool
    var completionHandler: Option<HandlerId>
    /** The policy every new `Request` starts with. */
    var defaultOfflinePolicy: OfflinePolicy
    var appCredentials: Option<Credentials>
    var userCredentials: Option<Credentials>
    var enableSystemTags: bool
    var user: Option<User>
    var device: Option<Device>
    var addons: seq<Addon>
    var events: seq<Event>

    ghost function State(): ManagerState
      reads this
    {
      ManagerState(environment, baseURL, appToken, userToken, startupDone, completionHandler, defaultOfflinePolicy,
                   appCredentials, userCredentials, enableSystemTags, user, device, addons)
    }

    /** `init()`: production environment (assigned without its observer, so the router keeps its own
        initial state), no add-ons, no user, system tags disabled. */
    constructor(constants: Constants, baseUrlOf: HaloEnvironment -> string)
      ensures this.constants == constants && this.baseUrlOf == baseUrlOf
      ensures environment == Prod && baseURL == Routing.InitialState.baseURL
      ensures appToken == None && userToken == None
      ensures !startupDone && completionHandler == None && defaultOfflinePolicy == PolicyNone
      ensures appCredentials == None && userCredentials == None && !enableSystemTags
      ensures user == None && device == None && addons == [] && events == []
    {
      this.constants := constants;
      this.baseUrlOf := baseUrlOf;
      environment := Prod;
      baseURL := Routing.InitialState.baseURL;
      appToken := None;
      userToken := None;
      startupDone := false;
      completionHandler := None;
      defaultOfflinePolicy := PolicyNone;
      appCredentials := None;
      userCredentials := None;
      enableSystemTags := false;
      user := None;
      device := None;
      addons := [];
      events := [];
    }

    /** Assigning `environment`: its observer points the router at the environment's base URL and
        forgets both tokens. */
    method AssignEnvironment(env: HaloEnvironment)
      modifies this`environment, this`baseURL, this`appToken, this`userToken
      ensures environment == env && baseURL == baseUrlOf(env)
      ensures appToken == None && userToken == None
    {
      environment := env;
      baseURL := baseUrlOf(env);
      userToken := None;
      appToken := None;
    }

    /** `registerAddon(addon:)`: the add-on is told before and after it is appended at the end. */
    method RegisterAddon(a: Addon)
      modifies this`addons, this`events
      ensures addons == old(addons) + [a]
      ensures events == old(events) + [WillRegisterAddon(a), DidRegisterAddon(a)]
    {
      events := events + [WillRegisterAddon(a)];
      addons := addons + [a];
      events := events + [DidRegisterAddon(a)];
    }

    /** The plist branch of `startup`: credentials when both of their strings are present, the
        environment (through its observer) when the plist names one, and the system-tag switch, false
        unless the plist holds true. */
    method LoadConfiguration(data: map<string, Json>)
      modifies this`appCredentials, this`userCredentials, this`environment, this`baseURL, this`appToken,
               this`userToken, this`enableSystemTags
      ensures var id, secret := StringAt(data, constants.clientIdKey), StringAt(data, constants.clientSecretKey);
        appCredentials == if id.Some? && secret.Some? then Some(ClientCredentials(id.value, secret.value)) else old(appCredentials)
      ensures var name, password := StringAt(data, constants.usernameKey), StringAt(data, constants.passwordKey);
        userCredentials == if name.Some? && password.Some? then Some(PasswordCredentials(name.value, password.value)) else old(userCredentials)
      ensures var env := StringAt(data, constants.environmentSettingKey);
        && (env.Some? ==> environment == EnvironmentFromPlist(env.value) && baseURL == baseUrlOf(environment)
                          && appToken == None && userToken == None)
        && (env.None? ==> environment == old(environment) && baseURL == old(baseURL)
                          && appToken == old(appToken) && userToken == old(userToken))
      ensures enableSystemTags <==> BoolAt(data, constants.enableSystemTagsKey) == Some(true)
    {
      var id, secret := StringAt(data, constants.clientIdKey), StringAt(data, constants.clientSecretKey);
      if id.Some? && secret.Some? {
        appCredentials := Some(ClientCredentials(id.value, secret.value));
      }
      var name, password := StringAt(data, constants.usernameKey), StringAt(data, constants.passwordKey);
      if name.Some? && password.Some? {
        userCredentials := Some(PasswordCredentials(name.value, password.value));
      }
      var env := StringAt(data, constants.environmentSettingKey);
      if env.Some? {
        AssignEnvironment(EnvironmentFromPlist(env.value));
      }
      var flag := BoolAt(data, constants.enableSystemTagsKey);
      enableSystemTags := if flag.Some? then flag.value else false;
    }

    /** `if let data = plist { ... }` in `startup`: the configuration is loaded when the plist exists. */
    method ReadPlist(plist: Option<map<string, Json>>)
      modifies this`appCredentials, this`userCredentials, this`environment, this`baseURL, this`appToken,
               this`userToken, this`enableSystemTags
      requires appToken == None && userToken == None
      ensures appToken == None && userToken == None
      ensures environment == PlistEnvironment(old(environment), plist, constants)
      ensures appCredentials == PlistAppCredentials(old(appCredentials), plist, constants)
      ensures userCredentials == PlistUserCredentials(old(userCredentials), plist, constants)
      ensures baseURL == PlistBaseURL(old(baseURL), plist, constants, baseUrlOf)
      ensures enableSystemTags <==> if plist.Some? then BoolAt(plist.value, constants.enableSystemTagsKey) == Some(true) else old(enableSystemTags)
    {
      if plist.Some? {
        LoadConfiguration(plist.value);
      }
    }

    /** `setupAddons` / `startupAddons`: every add-on's hook is called in registration order, then the
        barrier counts the callbacks. */
    method RunAddonPhase(phase: Phase, callbacks: seq<bool>) returns (calls: nat)
      modifies this`events
      ensures events == old(events) + PhaseCalls(addons, phase)
      ensures calls == if Fires(|addons|, |callbacks|) then 1 else 0
    {
      var i := 0;
      while i < |addons|
        invariant 0 <= i <= |addons|
        invariant events == old(events) + PhaseCalls(addons[..i], phase)
      {
        assert PhaseCalls(addons[..i + 1], phase) == PhaseCalls(addons[..i], phase) + [AddonCalled(phase, addons[i])];
        events := events + [AddonCalled(phase, addons[i])];
        i := i + 1;
      }
      assert addons[..i] == addons;
      calls := Barrier(|addons|, callbacks);
    }

    /** `setupDefaultSystemTags` over the user: the system tags are added one after another; without a
        user nothing is added and the result is false. */
    method SetupUserSystemTags(info: SystemInfo) returns (success: bool)
      modifies this`user
      ensures success <==> old(user).Some?
      ensures user == if old(user).Some?
                      then Some(old(user).value.(tags := AddSystemTags(old(user).value.tags, SystemTagSlots(constants, environment, info))))
                      else None
    {
      if user.None? {
        return false;
      }
      var tags := AddTagSteps(user.value.tags, info);
      user := Some(user.value.(tags := tags));
      success := true;
    }

    /** `setupDefaultSystemTags` over the device (the later revision of the same rules). */
    method SetupDeviceSystemTags(info: SystemInfo) returns (success: bool)
      modifies this`device
      ensures success <==> old(device).Some?
      ensures device == if old(device).Some?
                        then Some(old(device).value.(tags := AddSystemTags(old(device).value.tags, SystemTagSlots(constants, environment, info))))
                        else None
    {
      if device.None? {
        return false;
      }
      var tags := AddTagSteps(device.value.tags, info);
      device := Some(device.value.(tags := tags));
      success := true;
    }

    /** The `addSystemTag` calls of the setup, one statement per tag. */
    method AddTagSteps(ts: seq<Tag>, info: SystemInfo) returns (r: seq<Tag>)
      ensures r == AddSystemTags(ts, SystemTagSlots(constants, environment, info))
    {
      var platform := AddPlatformTags(ts, info);
      r := AddHardwareTags(platform, info);
      AddSystemTagsConcat(ts, PlatformSlots(constants, info), HardwareSlots(constants, environment, info));
    }

    /** The platform name, its version, and the bundle's name and version when present. */
    method AddPlatformTags(ts: seq<Tag>, info: SystemInfo) returns (r: seq<Tag>)
      ensures r == AddSystemTags(ts, PlatformSlots(constants, info))
    {
      var c := constants;
      ghost var done: seq<(string, Option<string>)> := [];
      r := ts;
      r := AddSystemTag(r, c.tagPlatformNameKey, "ios");
      AddSystemTagsSnoc(ts, done, (c.tagPlatformNameKey, Some("ios")));
      done := done + [(c.tagPlatformNameKey, Some("ios"))];
      var versionString := NatToString(info.osMajor) + "." + NatToString(info.osMinor);
      if info.osPatch > 0 {
        versionString := versionString + "." + NatToString(info.osPatch);
      }
      assert versionString == VersionString(info.osMajor, info.osMinor, info.osPatch);
      r := AddSystemTag(r, c.tagPlatformVersionKey, versionString);
      AddSystemTagsSnoc(ts, done, (c.tagPlatformVersionKey, Some(versionString)));
      done := done + [(c.tagPlatformVersionKey, Some(versionString))];
      if info.appName.Some? {
        r := AddSystemTag(r, c.tagApplicationNameKey, info.appName.value);
      }
      AddSystemTagsSnoc(ts, done, (c.tagApplicationNameKey, info.appName));
      done := done + [(c.tagApplicationNameKey, info.appName)];
      if info.appVersion.Some? {
        r := AddSystemTag(r, c.tagApplicationVersionKey, info.appVersion.value);
      }
      AddSystemTagsSnoc(ts, done, (c.tagApplicationVersionKey, info.appVersion));
      done := done + [(c.tagApplicationVersionKey, info.appVersion)];
      assert done == PlatformSlots(c, info);
    }

    /** The manufacturer, model, type, BLE support, screen size, test-device flag and APNs mode. */
    method AddHardwareTags(ts: seq<Tag>, info: SystemInfo) returns (r: seq<Tag>)
      ensures r == AddSystemTags(ts, HardwareSlots(constants, environment, info))
    {
      var c := constants;
      ghost var done: seq<(string, Option<string>)> := [];
      r := ts;
      r := AddSystemTag(r, c.tagDeviceManufacturerKey, "Apple");
      AddSystemTagsSnoc(ts, done, (c.tagDeviceManufacturerKey, Some("Apple")));
      done := done + [(c.tagDeviceManufacturerKey, Some("Apple"))];
      r := AddSystemTag(r, c.tagDeviceModelKey, info.modelName);
      AddSystemTagsSnoc(ts, done, (c.tagDeviceModelKey, Some(info.modelName)));
      done := done + [(c.tagDeviceModelKey, Some(info.modelName))];
      r := AddSystemTag(r, c.tagDeviceTypeKey, info.deviceType);
      AddSystemTagsSnoc(ts, done, (c.tagDeviceTypeKey, Some(info.deviceType)));
      done := done + [(c.tagDeviceTypeKey, Some(info.deviceType))];
      r := AddSystemTag(r, c.tagBLESupportKey, "true");
      AddSystemTagsSnoc(ts, done, (c.tagBLESupportKey, Some("true")));
      done := done + [(c.tagBLESupportKey, Some("true"))];
      r := AddSystemTag(r, c.tagDeviceScreenSizeKey, info.screenSize);
      AddSystemTagsSnoc(ts, done, (c.tagDeviceScreenSizeKey, Some(info.screenSize)));
      done := done + [(c.tagDeviceScreenSizeKey, Some(info.screenSize))];
      var test := if IsTestEnvironment(environment) then Some("true") else None;
      if IsTestEnvironment(environment) {
        r := AddSystemTag(r, c.tagTestDeviceKey, "true");
      }
      AddSystemTagsSnoc(ts, done, (c.tagTestDeviceKey, test));
      done := done + [(c.tagTestDeviceKey, test)];
      r := AddSystemTag(r, "apns", Lower(info.releaseMode));
      AddSystemTagsSnoc(ts, done, ("apns", Some(Lower(info.releaseMode))));
      done := done + [("apns", Some(Lower(info.releaseMode)))];
      assert done == HardwareSlots(c, environment, info);
    }

    /** `setEnvironment(environment:completionHandler:)`: assigns the environment, keeps the handler, and
        configures the user again; on success the user is registered, otherwise the handler gets false. */
    method SetEnvironment(env: HaloEnvironment, handler: Option<HandlerId>, us: UserServer, info: SystemInfo)
      returns (ghost configured: bool, ghost configuredUser: Option<User>)
      modifies this`environment, this`baseURL, this`appToken, this`userToken, this`completionHandler, this`user, this`events
      ensures environment == env && baseURL == baseUrlOf(env) && appToken == None && userToken == None
      ensures completionHandler == handler
      ensures configured == ConfigureReports(us.stored, UserRegistered(us.stored), us.fetched, FreshUser, enableSystemTags)
      ensures configuredUser == ConfiguredUser(us.stored, us.fetched, enableSystemTags, SystemTagSlots(constants, env, info))
      ensures !configured ==> events == old(events) + UserLookupEvents(us.stored) + Call(handler, false) && user == configuredUser
      ensures configured ==> events == old(events) + UserLookupEvents(us.stored) + RegistrationOutcome(configuredUser, env, us.saved, us.alive, handler)
                             && user == RegisteredUser(configuredUser, us.saved, us.alive)
    {
      AssignEnvironment(env);
      completionHandler := handler;
      var ok := ConfigureUser(us.stored, us.fetched, info);
      configured, configuredUser := ok, user;
      if ok {
        RegisterUser(us.saved, us.alive);
      } else {
        events := events + Call(handler, false);
      }
    }

    /** `startup(completionHandler:)`. Only the first call runs the pipeline; a later call only logs a
        warning, and its handler is neither kept nor called. `trapped` says that the first call ended in
        the crash of `checkNeedsUpdate`'s `try!`. */
    method Startup(handler: Option<HandlerId>, networkOk: bool, plist: Option<map<string, Json>>, us: UserServer,
                   info: SystemInfo, setupCallbacks: seq<bool>, startupCallbacks: seq<bool>)
      returns (trapped: bool, ghost configured: bool, ghost configuredUser: Option<User>)
      modifies this
      ensures old(startupDone) ==> !trapped && State() == old(State()) && events == old(events) + [StartupWarning]
      ensures !old(startupDone) ==> startupDone && completionHandler == handler && appToken == None && userToken == None
                                    && addons == old(addons) && device == old(device)
                                    && defaultOfflinePolicy == old(defaultOfflinePolicy)
      ensures !old(startupDone) && !networkOk ==>
        && !trapped
        && events == old(events) + Call(handler, false)
        && environment == old(environment) && baseURL == old(baseURL) && user == old(user)
        && enableSystemTags == old(enableSystemTags)
        && appCredentials == old(appCredentials) && userCredentials == old(userCredentials)
      ensures !old(startupDone) && networkOk ==>
        && (trapped <==> defaultOfflinePolicy != PolicyNone)
        && environment == PlistEnvironment(old(environment), plist, constants)
        && appCredentials == PlistAppCredentials(old(appCredentials), plist, constants)
        && userCredentials == PlistUserCredentials(old(userCredentials), plist, constants)
        && baseURL == PlistBaseURL(old(baseURL), plist, constants, baseUrlOf)
        && (enableSystemTags <==> if plist.Some? then BoolAt(plist.value, constants.enableSystemTagsKey) == Some(true) else old(enableSystemTags))
      ensures !old(startupDone) && networkOk && trapped ==> events == old(events) && user == old(user)
      ensures !old(startupDone) && networkOk && !trapped ==>
        && configured == ConfigureReports(us.stored, UserRegistered(us.stored), us.fetched, FreshUser, enableSystemTags)
        && configuredUser == ConfiguredUser(us.stored, us.fetched, enableSystemTags, SystemTagSlots(constants, environment, info))
        && user == StartedUser(configured, configuredUser, addons, setupCallbacks, startupCallbacks, us.saved, us.alive)
      ensures !old(startupDone) && networkOk && !trapped && !configured ==>
        events == old(events) + [VersionCheckSent] + UserLookupEvents(us.stored) + Call(handler, false)
      ensures !old(startupDone) && networkOk && !trapped && configured ==>
        events == old(events) + [VersionCheckSent] + UserLookupEvents(us.stored)
                  + AfterConfigure(addons, setupCallbacks, startupCallbacks, configuredUser, environment, us.saved, us.alive, handler)
    {
      if startupDone {
        events := events + [StartupWarning];
        return false, false, None;
      }
      trapped, configured, configuredUser := StartupOnce(handler, networkOk, plist, us, info, setupCallbacks, startupCallbacks);
    }

    /** The body `startup` runs once: keep the handler, forget both tokens, stop with false when the
        network layer fails to start; otherwise read the plist, check the SDK version, configure the
        user, and either report false or bring the add-ons up and register the user. */
    method StartupOnce(handler: Option<HandlerId>, networkOk: bool, plist: Option<map<string, Json>>, us: UserServer,
                       info: SystemInfo, setupCallbacks: seq<bool>, startupCallbacks: seq<bool>)
      returns (trapped: bool, ghost configured: bool, ghost configuredUser: Option<User>)
      modifies this`startupDone, this`completionHandler, this`appToken, this`userToken, this`appCredentials,
               this`userCredentials, this`environment, this`baseURL, this`enableSystemTags, this`user, this`events
      ensures startupDone && completionHandler == handler && appToken == None && userToken == None
      ensures !networkOk ==>
        && !trapped
        && events == old(events) + Call(handler, false)
        && environment == old(environment) && baseURL == old(baseURL) && user == old(user)
        && enableSystemTags == old(enableSystemTags)
        && appCredentials == old(appCredentials) && userCredentials == old(userCredentials)
      ensures networkOk ==>
        && (trapped <==> defaultOfflinePolicy != PolicyNone)
        && environment == PlistEnvironment(old(environment), plist, constants)
        && appCredentials == PlistAppCredentials(old(appCredentials), plist, constants)
        && userCredentials == PlistUserCredentials(old(userCredentials), plist, constants)
        && baseURL == PlistBaseURL(old(baseURL), plist, constants, baseUrlOf)
        && (enableSystemTags <==> if plist.Some? then BoolAt(plist.value, constants.enableSystemTagsKey) == Some(true) else old(enableSystemTags))
      ensures networkOk && trapped ==> events == old(events) && user == old(user)
      ensures networkOk && !trapped ==>
        && configured == ConfigureReports(us.stored, UserRegistered(us.stored), us.fetched, FreshUser, enableSystemTags)
        && configuredUser == ConfiguredUser(us.stored, us.fetched, enableSystemTags, SystemTagSlots(constants, environment, info))
        && user == StartedUser(configured, configuredUser, addons, setupCallbacks, startupCallbacks, us.saved, us.alive)
      ensures networkOk && !trapped && !configured ==>
        events == old(events) + [VersionCheckSent] + UserLookupEvents(us.stored) + Call(handler, false)
      ensures networkOk && !trapped && configured ==>
        events == old(events) + [VersionCheckSent] + UserLookupEvents(us.stored)
                  + AfterConfigure(addons, setupCallbacks, startupCallbacks, configuredUser, environment, us.saved, us.alive, handler)
    {
      startupDone := true;
      completionHandler := handler;
      userToken := None;
      appToken := None;
      if !networkOk {
        events := events + Call(handler, false);
        return false, false, None;
      }
      trapped, configured, configuredUser := AfterNetworkStartup(plist, us, info, setupCallbacks, startupCallbacks);
    }

    /** What the once-body does when the network layer has started: read the plist, check the SDK
        version, and, unless that check crashed, configure the user and either report false to the kept
        handler or bring the add-ons up and register the user. */
    method AfterNetworkStartup(plist: Option<map<string, Json>>, us: UserServer, info: SystemInfo,
                               setupCallbacks: seq<bool>, startupCallbacks: seq<bool>)
      returns (trapped: bool, ghost configured: bool, ghost configuredUser: Option<User>)
      modifies this`appToken, this`userToken, this`appCredentials, this`userCredentials, this`environment,
               this`baseURL, this`enableSystemTags, this`user, this`events
      requires appToken == None && userToken == None
      ensures appToken == None && userToken == None
      ensures trapped <==> defaultOfflinePolicy != PolicyNone
      ensures environment == PlistEnvironment(old(environment), plist, constants)
      ensures appCredentials == PlistAppCredentials(old(appCredentials), plist, constants)
      ensures userCredentials == PlistUserCredentials(old(userCredentials), plist, constants)
      ensures baseURL == PlistBaseURL(old(baseURL), plist, constants, baseUrlOf)
      ensures enableSystemTags <==> if plist.Some? then BoolAt(plist.value, constants.enableSystemTagsKey) == Some(true) else old(enableSystemTags)
      ensures trapped ==> events == old(events) && user == old(user)
      ensures !trapped ==>
        && configured == ConfigureReports(us.stored, UserRegistered(us.stored), us.fetched, FreshUser, enableSystemTags)
        && configuredUser == ConfiguredUser(us.stored, us.fetched, enableSystemTags, SystemTagSlots(constants, environment, info))
        && user == StartedUser(configured, configuredUser, addons, setupCallbacks, startupCallbacks, us.saved, us.alive)
      ensures !trapped && !configured ==>
        events == old(events) + [VersionCheckSent] + UserLookupEvents(us.stored) + Call(completionHandler, false)
      ensures !trapped && configured ==>
        events == old(events) + [VersionCheckSent] + UserLookupEvents(us.stored)
                  + AfterConfigure(addons, setupCallbacks, startupCallbacks, configuredUser, environment, us.saved, us.alive, completionHandler)
    {
      ReadPlist(plist);
      trapped := CheckNeedsUpdate();
      if trapped {
        return trapped, false, None;
      }
      configured, configuredUser := ConfigureAndBringUp(us, info, setupCallbacks, startupCallbacks);
    }

    /** `checkNeedsUpdate`: a new request for the SDK's minimum version, made with `try!`. The request
        takes the default offline policy, and `response` throws for any policy but the network-only one,
        so the call crashes (`trapped`) before anything is sent; otherwise the request is sent. */
    method CheckNeedsUpdate() returns (trapped: bool)
      modifies this`events
      ensures trapped <==> defaultOfflinePolicy != PolicyNone
      ensures events == old(events) + (if trapped then [] else [VersionCheckSent])
    {
      if defaultOfflinePolicy != PolicyNone {
        return true;
      }
      events := events + [VersionCheckSent];
      return false;
    }

    /** `configureUser`, then on success `setupAddons`, `startupAddons` and `registerUser`, and on
        failure the kept handler called with false. */
    method ConfigureAndBringUp(us: UserServer, info: SystemInfo, setupCallbacks: seq<bool>, startupCallbacks: seq<bool>)
      returns (ghost configured: bool, ghost configuredUser: Option<User>)
      modifies this`user, this`events
      ensures configured == ConfigureReports(us.stored, UserRegistered(us.stored), us.fetched, FreshUser, enableSystemTags)
      ensures configuredUser == ConfiguredUser(us.stored, us.fetched, enableSystemTags, SystemTagSlots(constants, environment, info))
      ensures user == StartedUser(configured, configuredUser, addons, setupCallbacks, startupCallbacks, us.saved, us.alive)
      ensures !configured ==> events == old(events) + UserLookupEvents(us.stored) + Call(completionHandler, false)
      ensures configured ==>
        events == old(events) + UserLookupEvents(us.stored)
                  + AfterConfigure(addons, setupCallbacks, startupCallbacks, configuredUser, environment, us.saved, us.alive, completionHandler)
    {
      var ok := ConfigureUser(us.stored, us.fetched, info);
      configured, configuredUser := ok, user;
      if !ok {
        events := events + Call(completionHandler, false);
        return;
      }
      BringUpAddonsAndRegister(setupCallbacks, startupCallbacks, us.saved, us.alive);
    }

    /** `setupAddons`, then `startupAddons`, then `registerUser`, each step waiting for the previous
        barrier to complete. */
    method BringUpAddonsAndRegister(setupCallbacks: seq<bool>, startupCallbacks: seq<bool>, saved: Result<Option<User>>, alive: bool)
      modifies this`user, this`events
      ensures events == old(events) + AfterConfigure(addons, setupCallbacks, startupCallbacks, old(user), environment, saved, alive, completionHandler)
      ensures user == if Fires(|addons|, |setupCallbacks|) && Fires(|addons|, |startupCallbacks|)
                      then RegisteredUser(old(user), saved, alive) else old(user)
    {
      ghost var start := events;
      ghost var setupCalls := PhaseCalls(addons, SetupPhase);
      ghost var startupCalls := PhaseCalls(addons, StartupPhase);
      var setUp := RunAddonPhase(SetupPhase, setupCallbacks);
      if setUp > 0 {
        var started := RunAddonPhase(StartupPhase, startupCallbacks);
        if started > 0 {
          RegisterUser(saved, alive);
          ghost var registration := RegistrationOutcome(old(user), environment, saved, alive, completionHandler);
          Regroup(start, setupCalls, startupCalls, registration);
          Regroup3(setupCalls, startupCalls, registration);
        } else {
          Regroup3(start, setupCalls, startupCalls);
          assert startupCalls + [] == startupCalls;
        }
      } else {
        assert setupCalls + [] == setupCalls;
      }
    }

    /** `configureUser`: the stored user is fetched again when it has a server id, otherwise a fresh user
        takes its place and the delegate is told; the system tags follow when they are enabled. The result
        is what the step's handler is called with. */
    method ConfigureUser(stored: Option<User>, fetched: Result<Option<User>>, info: SystemInfo) returns (success: bool)
      modifies this`user, this`events
      ensures events == old(events) + UserLookupEvents(stored)
      ensures user == ConfiguredUser(stored, fetched, enableSystemTags, SystemTagSlots(constants, environment, info))
      ensures success == ConfigureReports(stored, UserRegistered(stored), fetched, FreshUser, enableSystemTags)
    {
      user := stored;
      if UserRegistered(user) {
        events := events + [GetUserSent(user.value)];
        if fetched.Success? {
          user := fetched.value;
          success := true;
        } else {
          success := false;
        }
      } else {
        user := Some(FreshUser);
        events := events + [WillSetupUser(FreshUser)];
        success := true;
      }
      if enableSystemTags {
        success := SetupUserSystemTags(info);
      }
    }

    /** `registerUser`: without a user the stored handler gets false; otherwise the user is stored
        locally and sent, and the response, if the manager is still there, replaces and stores the user
        on success and calls the stored handler with the outcome. */
    method RegisterUser(saved: Result<Option<User>>, alive: bool)
      modifies this`user, this`events
      ensures events == old(events) + RegistrationOutcome(old(user), environment, saved, alive, completionHandler)
      ensures user == RegisteredUser(old(user), saved, alive)
    {
      if user.None? {
        events := events + Call(completionHandler, false);
        return;
      }
      var u := user.value;
      events := events + [UserStored(u, environment)];
      events := events + [CreateUpdateUserSent(u)];
      if alive {
        var success := false;
        if saved.Success? {
          user := saved.value;
          if user.Some? {
            events := events + [UserStored(user.value, environment)];
          }
          success := true;
        }
        events := events + Call(completionHandler, success);
      }
    }

    /** `saveUser(completionHandler:)`: without a user nothing happens; otherwise the user is sent, and
        the response, if the manager is still there, replaces the user on success only and is handed to
        the handler. */
    method SaveUser(handler: Option<HandlerId>, saved: Result<Option<User>>, alive: bool)
      modifies this`user, this`events
      ensures old(user).None? ==> events == old(events)
      ensures old(user).Some? ==>
        events == old(events) + [CreateUpdateUserSent(old(user).value)]
                  + (if alive && handler.Some? then [UserSaved(handler.value, saved)] else [])
      ensures user == if old(user).Some? && alive && saved.Success? then saved.value else old(user)
      ensures saved.Failure? ==> user == old(user)
    {
      if user.Some? {
        events := events + [CreateUpdateUserSent(user.value)];
        if alive {
          if saved.Success? {
            user := saved.value;
          }
          if handler.Some? {
            events := events + [UserSaved(handler.value, saved)];
          }
        }
      }
    }

    /** `configureDevice(_:)`: as for the user, over the device, with the outcome handed to the handler. */
    method ConfigureDevice(handler: Option<HandlerId>, stored: Option<Device>, fetched: Result<Option<Device>>, info: SystemInfo)
      returns (success: bool)
      modifies this`device, this`events
      ensures success == ConfigureReports(stored, DeviceRegistered(stored), fetched, FreshDevice, enableSystemTags)
      ensures device == ConfiguredDevice(stored, fetched, enableSystemTags, SystemTagSlots(constants, environment, info))
      ensures events == old(events) + DeviceLookupEvents(stored) + Call(handler, success)
    {
      device := stored;
      if DeviceRegistered(device) {
        events := events + [GetDeviceSent(device.value)];
        if fetched.Success? {
          device := fetched.value;
          success := true;
        } else {
          success := false;
        }
      } else {
        device := Some(FreshDevice);
        events := events + [WillSetupDevice(FreshDevice)];
        success := true;
      }
      if enableSystemTags {
        success := SetupDeviceSystemTags(info);
      }
      events := events + Call(handler, success);
    }

    /** `addons.forEach { ($0 as? DeviceAddon)?.<hook>(haloCore: self) }`. */
    method NotifyDeviceAddons(hook: DeviceHook)
      modifies this`events
      ensures events == old(events) + HookCalls(DeviceAddons(addons), hook)
    {
      var i := 0;
      while i < |addons|
        invariant 0 <= i <= |addons|
        invariant events == old(events) + HookCalls(DeviceAddons(addons[..i]), hook)
      {
        assert addons[..i + 1][..i] == addons[..i];
        ghost var before := DeviceAddons(addons[..i]);
        if addons[i].isDeviceAddon {
          assert DeviceAddons(addons[..i + 1]) == before + [addons[i]];
          assert HookCalls(before + [addons[i]], hook) == HookCalls(before, hook) + [HookEvent(hook, addons[i])];
          events := events + [HookEvent(hook, addons[i])];
        } else {
          assert DeviceAddons(addons[..i + 1]) == before;
        }
        i := i + 1;
      }
      assert addons[..i] == addons;
    }

    /** `registerDevice(_:)`: without a device the handler gets false and no request is made; otherwise
        the device is stored and sent between the two device add-on notifications, and the response, if
        the manager is still there, replaces and stores the device on success. */
    method RegisterDevice(handler: Option<HandlerId>, saved: Result<Option<Device>>, alive: bool)
      modifies this`device, this`events
      ensures old(device).None? ==> events == old(events) + Call(handler, false)
      ensures old(device).Some? ==>
        events == old(events) + DeviceRegistrationEvents(old(device).value, environment, DeviceAddons(addons), saved, alive, handler)
      ensures device == if old(device).Some? && alive && saved.Success? then saved.value else old(device)
    {
      if device.None? {
        events := events + Call(handler, false);
        return;
      }
      var d := device.value;
      ghost var start := events;
      SendDevice(d);
      if alive {
        ReceiveDevice(handler, saved);
        Regroup3(start, DeviceRequestEvents(d, environment, DeviceAddons(addons)),
                 DeviceResponseEvents(environment, DeviceAddons(addons), saved, handler));
      } else {
        assert DeviceRequestEvents(d, environment, DeviceAddons(addons)) + [] == DeviceRequestEvents(d, environment, DeviceAddons(addons));
      }
    }

    /** The request half of `registerDevice`. */
    method SendDevice(d: Device)
      modifies this`events
      ensures events == old(events) + DeviceRequestEvents(d, environment, DeviceAddons(addons))
    {
      ghost var start := events;
      events := events + [DeviceStored(d, environment)];
      NotifyDeviceAddons(BeforeRegistration);
      events := events + [CreateUpdateDeviceSent(d)];
      Regroup(start, [DeviceStored(d, environment)], HookCalls(DeviceAddons(addons), BeforeRegistration), [CreateUpdateDeviceSent(d)]);
    }

    /** The response half of `registerDevice`, once the manager is known to be alive. */
    method ReceiveDevice(handler: Option<HandlerId>, saved: Result<Option<Device>>)
      modifies this`device, this`events
      ensures events == old(events) + DeviceResponseEvents(environment, DeviceAddons(addons), saved, handler)
      ensures device == if saved.Success? then saved.value else old(device)
    {
      ghost var start := events;
      var success := false;
      var stored: seq<Event> := [];
      if saved.Success? {
        device := saved.value;
        if device.Some? {
          stored := [DeviceStored(device.value, environment)];
        }
        success := true;
      }
      events := events + stored;
      NotifyDeviceAddons(AfterRegistration);
      events := events + Call(handler, success);
      Regroup(start, stored, HookCalls(DeviceAddons(addons), AfterRegistration), Call(handler, success));
    }

    /** `saveDevice(_:)`: as `saveUser`, over the device. */
    method SaveDevice(handler: Option<HandlerId>, saved: Result<Option<Device>>, alive: bool)
      modifies this`device, this`events
      ensures old(device).None? ==> events == old(events)
      ensures old(device).Some? ==>
        events == old(events) + [CreateUpdateDeviceSent(old(device).value)]
                  + (if alive && handler.Some? then [DeviceSaved(handler.value, saved)] else [])
      ensures device == if old(device).Some? && alive && saved.Success? then saved.value else old(device)
      ensures saved.Failure? ==> device == old(device)
    {
      if device.Some? {
        events := events + [CreateUpdateDeviceSent(device.value)];
        if alive {
          if saved.Success? {
            device := saved.value;
          }
          if handler.Some? {
            events := events + [DeviceSaved(handler.value, saved)];
          }
        }
      }
    }
  }
}
