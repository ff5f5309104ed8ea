/**
 * Configuration profiles (node_modules/couchbase/dist/configProfile.js): a
 * registry from profile names to profiles, and the built-in WAN development
 * profile, which overwrites a fixed set of timeouts in the caller's connect
 * options.
 */
module ConfigProfile {
  import opened Js

  /** The part of `ConnectOptions` a profile works on: the `timeouts` and
      `dnsConfig` groups (each may be absent) and every other option. */
  datatype ConnectOptionsState = ConnectOptionsState(
    timeouts: Option<JsObject>,
    dnsConfig: Option<JsObject>,
    rest: JsObject)

  /** The caller's connect options object, which profiles update in place. */
  class ConnectOptions {
    var timeouts: Option<JsObject>
    var dnsConfig: Option<JsObject>
    var rest: JsObject

    function State(): ConnectOptionsState
      reads this
    {
      ConnectOptionsState(timeouts, dnsConfig, rest)
    }

    constructor(s: ConnectOptionsState)
      ensures State() == s
    {
      timeouts, dnsConfig, rest := s.timeouts, s.dnsConfig, s.rest;
    }
  }

  /** `{ ...o }`: spreading an absent group contributes no properties. */
  function Spread(o: Option<JsObject>): JsObject
  {
    if o.Some? then o.value else map[]
  }

  /** The ten timeouts the WAN development profile fixes, in milliseconds. */
  const WanTimeouts: JsObject := map[
    "kvTimeout" := Num(20000),
    "kvDurableTimeout" := Num(20000),
    "analyticsTimeout" := Num(120000),
    "managementTimeout" := Num(120000),
    "queryTimeout" := Num(120000),
    "searchTimeout" := Num(120000),
    "viewTimeout" := Num(120000),
    "bootstrapTimeout" := Num(120000),
    "connectTimeout" := Num(20000),
    "resolveTimeout" := Num(20000)]

  const WanDnsSrvTimeout: int := 20000

  /** The options after the WAN development profile is applied: the fixed
      timeouts override earlier values, other timeouts and DNS settings stay. */
  function WanDevelopmentApplied(s: ConnectOptionsState): (r: ConnectOptionsState)
    ensures r.timeouts.Some? && r.dnsConfig.Some? && r.rest == s.rest
    ensures r.timeouts.value.Keys == Spread(s.timeouts).Keys + WanTimeouts.Keys
    ensures forall k :: k in WanTimeouts ==> r.timeouts.value[k] == WanTimeouts[k]
    ensures forall k :: k in Spread(s.timeouts) && k !in WanTimeouts ==>
              r.timeouts.value[k] == Spread(s.timeouts)[k]
    ensures r.dnsConfig.value.Keys == Spread(s.dnsConfig).Keys + {"dnsSrvTimeout"}
    ensures r.dnsConfig.value["dnsSrvTimeout"] == Num(WanDnsSrvTimeout)
    ensures forall k :: k in Spread(s.dnsConfig) && k != "dnsSrvTimeout" ==>
              r.dnsConfig.value[k] == Spread(s.dnsConfig)[k]
  {
    s.(timeouts := Some(Spread(s.timeouts) + WanTimeouts),
       dnsConfig := Some(Spread(s.dnsConfig)["dnsSrvTimeout" := Num(WanDnsSrvTimeout)]))
  }

  /** `WanDevelopmentProfile.apply`: reassigns the two option groups in place. */
  method WanDevelopmentApply(options: ConnectOptions)
    modifies options
    ensures options.State() == WanDevelopmentApplied(old(options.State()))
  {
    options.timeouts := Some(Spread(options.timeouts) + WanTimeouts);
    options.dnsConfig := Some(Spread(options.dnsConfig)["dnsSrvTimeout" := Num(WanDnsSrvTimeout)]);
  }

  /** Applying the WAN profile twice gives the same options as applying it once. */
  lemma WanDevelopmentIdempotent(s: ConnectOptionsState)
    ensures WanDevelopmentApplied(WanDevelopmentApplied(s)) == WanDevelopmentApplied(s)
  {
    var once := WanDevelopmentApplied(s);
    var twice := WanDevelopmentApplied(once);
    assert twice.timeouts.value == once.timeouts.value;
    assert twice.dnsConfig.value == once.dnsConfig.value;
  }

  /** A registered profile: the built-in WAN profile, or a caller's object
      whose `apply` is code outside this model, seen as a function of the
      options it is given (assumed to return normally). */
  datatype Profile =
    | WanDevelopmentProfile
    | CustomProfile(apply: ConnectOptionsState -> ConnectOptionsState)

  function ProfileApplied(p: Profile, s: ConnectOptionsState): ConnectOptionsState
  {
    match p
    case WanDevelopmentProfile => WanDevelopmentApplied(s)
    case CustomProfile(f) => f(s)
  }

  /** The message `applyProfile` throws for a name it does not know. */
  function NotRegisteredMessage(profileName: string): string
  {
    profileName + " is not a registered profile."
  }

  /** What `applyProfile` does to the options, with the registry guard read
      as an own-property test: unknown names fail and change nothing. */
  function ApplyProfileResult(profiles: map<string, Profile>, profileName: string, s: ConnectOptionsState)
    : (r: Result<ConnectOptionsState>)
    ensures r.Ok? <==> profileName in profiles
    ensures r.Err? ==> r.error == Error(NotRegisteredMessage(profileName))
    ensures r.Ok? ==> r.value == ProfileApplied(profiles[profileName], s)
  {
    if profileName !in profiles then Err(Error(NotRegisteredMessage(profileName)))
    else Ok(ProfileApplied(profiles[profileName], s))
  }

  /** Properties every plain JavaScript object inherits from `Object.prototype`.
      The `in` operator of configProfile.js:58 finds them in `_profiles`. */
  const ObjectPrototypeMembers: set<string> := {
    "constructor", "hasOwnProperty", "isPrototypeOf", "propertyIsEnumerable",
    "toLocaleString", "toString", "valueOf", "__lookupGetter__", "__lookupSetter__",
    "__defineGetter__", "__defineSetter__", "__proto__"}

  /** The inherited members whose `.apply(options)` (that is,
      `Function.prototype.apply` with `options` as receiver and no arguments)
      returns without throwing and without touching `options`. */
  const HarmlessInheritedMembers: set<string> := {
    "constructor", "hasOwnProperty", "isPrototypeOf", "propertyIsEnumerable",
    "toLocaleString", "toString", "valueOf", "__lookupGetter__", "__lookupSetter__"}

  /** `applyProfile` as written: the guard `profileName in this._profiles`
      also accepts inherited members.  For those, the call either returns
      with the options untouched or the engine raises a TypeError
      (`__proto__` has no `apply`; `__defineGetter__`/`__defineSetter__`
      reject a missing getter/setter). */
  function ApplyProfileAsWritten(profiles: map<string, Profile>, profileName: string, s: ConnectOptionsState)
    : (r: Result<ConnectOptionsState>)
    ensures profileName in profiles ==> r == ApplyProfileResult(profiles, profileName, s)
    ensures profileName !in profiles && profileName !in ObjectPrototypeMembers ==>
              r == ApplyProfileResult(profiles, profileName, s)
    ensures profileName !in profiles && profileName in ObjectPrototypeMembers ==>
              r != ApplyProfileResult(profiles, profileName, s)
    ensures profileName !in profiles && profileName in HarmlessInheritedMembers ==> r == Ok(s)
    ensures profileName !in profiles && profileName in ObjectPrototypeMembers - HarmlessInheritedMembers ==>
              r.Err? && r.error.TypeError?
  {
    if profileName in profiles then Ok(ProfileApplied(profiles[profileName], s))
    else if profileName in HarmlessInheritedMembers then Ok(s)
    else if profileName in ObjectPrototypeMembers then Err(TypeError("not a function"))
    else Err(Error(NotRegisteredMessage(profileName)))
  }

  /** The discrepancy: with no profile registered as "toString", the code as
      written returns normally (and leaves the options as they were) where an
      unregistered name should fail with "toString is not a registered profile." */
  lemma InheritedNamePassesRegistryGuard(profiles: map<string, Profile>, s: ConnectOptionsState)
    requires "toString" !in profiles
    ensures ApplyProfileAsWritten(profiles, "toString", s) == Ok(s)
    ensures ApplyProfileResult(profiles, "toString", s) == Err(Error(NotRegisteredMessage("toString")))
  {
    assert "toString" in HarmlessInheritedMembers;
  }

  /** `ConfigProfiles`: the registry, a name-to-profile table updated in place. */
  class ConfigProfiles {
    var profiles: map<string, Profile>

    /** Starts with the WAN development profile registered as 'wanDevelopment'. */
    constructor()
      ensures profiles == map["wanDevelopment" := WanDevelopmentProfile]
    {
      profiles := map[];
      new;
      RegisterProfile("wanDevelopment", WanDevelopmentProfile);
    }

    /** `applyProfile` with the intended own-property guard of
        `ApplyProfileResult` (not the `in` test as written, see
        `ApplyProfileAsWritten`): fails on a name that is not registered,
        leaving the options unchanged; otherwise applies the registered
        profile to them. */
    method ApplyProfile(profileName: string, options: ConnectOptions) returns (r: Result<()>)
      modifies options
      ensures r.Ok? <==> ApplyProfileResult(profiles, profileName, old(options.State())).Ok?
      ensures r.Err? ==> r.error == Error(NotRegisteredMessage(profileName))
      ensures r.Err? ==> options.State() == old(options.State())
      ensures r.Ok? ==> options.State() == ApplyProfileResult(profiles, profileName, old(options.State())).value
    {
      if profileName !in profiles {
        return Err(Error(NotRegisteredMessage(profileName)));
      }
      match profiles[profileName] {
        case WanDevelopmentProfile =>
          WanDevelopmentApply(options);
        case CustomProfile(apply) =>
          var s := apply(options.State());
          options.timeouts, options.dnsConfig, options.rest := s.timeouts, s.dnsConfig, s.rest;
      }
      r := Ok(());
    }

    /** `registerProfile`: sets or overwrites exactly one entry. */
    method RegisterProfile(profileName: string, profile: Profile)
      modifies this
      ensures profiles == old(profiles)[profileName := profile]
      ensures forall n :: n != profileName ==> (n in profiles <==> n in old(profiles))
      ensures forall n :: n != profileName && n in profiles ==> profiles[n] == old(profiles)[n]
    {
      profiles := profiles[profileName := profile];
    }

    /** `unregisterProfile`: removes the entry if present; removing an absent
        name changes nothing. */
    method UnregisterProfile(profileName: string)
      modifies this
      ensures profiles == old(profiles) - {profileName}
      ensures profileName !in profiles
      ensures profileName !in old(profiles) ==> profiles == old(profiles)
    {
      profiles := profiles - {profileName};
    }
  }

  /** Under the intended guard, once a name is unregistered, applying it
      fails and leaves the options alone. */
  method UnregisterThenApply(registry: ConfigProfiles, profileName: string, options: ConnectOptions)
    returns (r: Result<()>)
    modifies registry, options
    ensures r == Err(Error(NotRegisteredMessage(profileName)))
    ensures options.State() == old(options.State())
  {
    registry.UnregisterProfile(profileName);
    r := registry.ApplyProfile(profileName, options);
  }
}
