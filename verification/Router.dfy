/** The in-memory router of services/aaa-service/app/routeros.py, `FakeRouterOSAdapter`. */
module Router {
  import opened Common
  import opened Text
  import opened Intervals

  datatype RadiusEntry = RadiusEntry(
    remoteId: string, address: string, service: seq<string>, srcAddress: Option<string>,
    authPort: Option<int>, accountingPort: Option<int>, timeout: Option<int>,
    realm: Option<string>, domain: Option<string>, calledId: Option<string>, disabled: bool)

  /** Values the planner asks the router to hold for one RADIUS entry. */
  datatype RadiusValues = RadiusValues(
    address: string, services: seq<string>,
    authPort: Option<int>, accountingPort: Option<int>, timeout: Option<int>, srcAddress: Option<string>)

  datatype PppAaa = PppAaa(useRadius: bool, accounting: bool, interimUpdate: Option<string>, defaultProfile: string)
  datatype PppSettings = PppSettings(useRadius: bool, accounting: bool, interimSeconds: Option<int>)

  datatype UserAaa = UserAaa(useRadius: bool, accounting: bool, defaultGroup: Option<string>,
                             excludedGroups: seq<string>)

  datatype HotspotProfile = HotspotProfile(
    remoteId: string, name: string, useRadius: bool, radiusAccounting: bool,
    radiusInterimUpdate: Option<string>, locationName: Option<string>)
  datatype HotspotSettings = HotspotSettings(
    useRadius: bool, radiusAccounting: bool, interimSeconds: Option<int>, locationName: Option<string>)

  datatype Incoming = Incoming(accept: bool, port: int, disabled: bool, address: string)
  datatype IncomingSettings = IncomingSettings(accept: bool, port: int, disabled: bool)

  datatype RouterState = RouterState(
    entries: seq<RadiusEntry>, ppp: PppAaa, user: UserAaa,
    hotspots: seq<HotspotProfile>, incoming: seq<Incoming>, nextId: nat, commandError: Option<string>)

  /** The remote id made from a counter value. */
  function RemoteIdText(n: nat): string {
    "*" + Digits(n)
  }

  /* ---- normalization ---- */

  /** `_services` followed by the ppp-to-pppoe renaming of `normalize_radius_entry`. */
  function NormalizeServices(services: seq<string>): seq<string> {
    if services == [] then []
    else
      var name := Strip(services[0]);
      var rest := NormalizeServices(services[1..]);
      if name == "" then rest else [if Lower(name) == "ppp" then "pppoe" else name] + rest
  }

  function NormalizeOptional(value: Option<string>): Option<string> {
    if value.None? then None else OrNone(Some(Strip(value.value)))
  }

  function CreatedEntry(id: string, v: RadiusValues): RadiusEntry {
    RadiusEntry(id, Strip(v.address), NormalizeServices(v.services), NormalizeOptional(v.srcAddress),
                Some(OrDefault(v.authPort, 1812)), Some(OrDefault(v.accountingPort, 1813)),
                Some(OrDefault(v.timeout, 3000)), None, None, None, false)
  }

  function UpdatedEntry(e: RadiusEntry, v: RadiusValues): RadiusEntry {
    e.(service := v.services, authPort := v.authPort, accountingPort := v.accountingPort,
       timeout := v.timeout, srcAddress := v.srcAddress, address := v.address)
  }

  /* ---- list searches; the length of the list means "not found" ---- */

  function FirstWithId(es: seq<RadiusEntry>, id: string): (i: nat)
    ensures i <= |es|
    ensures i < |es| ==> es[i].remoteId == id
    ensures forall k | 0 <= k < i :: es[k].remoteId != id
  {
    if es == [] || es[0].remoteId == id then 0 else 1 + FirstWithId(es[1..], id)
  }

  function FirstProfile(ps: seq<HotspotProfile>, name: string): (i: nat)
    ensures i <= |ps|
    ensures i < |ps| ==> ps[i].name == name
    ensures forall k | 0 <= k < i :: ps[k].name != name
  {
    if ps == [] || ps[0].name == name then 0 else 1 + FirstProfile(ps[1..], name)
  }

  function WithoutId(es: seq<RadiusEntry>, id: string): (r: seq<RadiusEntry>)
    ensures forall e :: e in r <==> e in es && e.remoteId != id
  {
    if es == [] then []
    else if es[0].remoteId == id then WithoutId(es[1..], id)
    else [es[0]] + WithoutId(es[1..], id)
  }

  /* ---- writes, as functions of the router state ---- */

  /** A router state after a write, and the error the write raised, if any. */
  datatype Written = Written(state: RouterState, error: Option<string>)

  function Create(s: RouterState, v: RadiusValues): Written {
    if s.commandError.Some? then Written(s, Some("COMMAND_FAILED"))
    else Written(s.(entries := s.entries + [CreatedEntry(RemoteIdText(s.nextId), v)], nextId := s.nextId + 1), None)
  }

  function Update(s: RouterState, id: string, v: RadiusValues): Written {
    var i := FirstWithId(s.entries, id);
    if i == |s.entries| then Written(s, Some("INVALID_RESPONSE"))
    else Written(s.(entries := s.entries[i := UpdatedEntry(s.entries[i], v)]), None)
  }

  function Remove(s: RouterState, id: string): Written {
    Written(s.(entries := WithoutId(s.entries, id)), None)
  }

  function ConfiguredPpp(p: PppAaa, v: PppSettings): PppAaa {
    PppAaa(v.useRadius, v.accounting,
           if v.interimSeconds.Some? then Some(FormatInterval(v.interimSeconds.value)) else p.interimUpdate,
           p.defaultProfile)
  }

  function ConfiguredUser(u: UserAaa, v: UserAaa): UserAaa {
    UserAaa(v.useRadius, v.accounting,
            if OrNone(v.defaultGroup).Some? then v.defaultGroup else u.defaultGroup, v.excludedGroups)
  }

  function ConfiguredProfile(p: HotspotProfile, v: HotspotSettings): HotspotProfile {
    p.(useRadius := v.useRadius, radiusAccounting := v.radiusAccounting,
       radiusInterimUpdate :=
         if v.interimSeconds.Some? then Some(FormatInterval(v.interimSeconds.value)) else p.radiusInterimUpdate)
  }

  function ConfigureHotspot(s: RouterState, name: string, v: HotspotSettings): Written {
    var i := FirstProfile(s.hotspots, name);
    if i == |s.hotspots| then Written(s, Some("COMMAND_FAILED"))
    else Written(s.(hotspots := s.hotspots[i := ConfiguredProfile(s.hotspots[i], v)]), None)
  }

  function ConfigureIncoming(s: RouterState, v: IncomingSettings): Written {
    if s.incoming == [] then Written(s, Some("IndexError"))
    else
      var row := s.incoming[0].(accept := v.accept, port := v.port, disabled := v.disabled);
      Written(s.(incoming := s.incoming[0 := row]), None)
  }

  /** `get_ppp_aaa`: the interval is read back in seconds. */
  function PppInterimSeconds(p: PppAaa): Option<nat> {
    ParseInterval(if p.interimUpdate.Some? then p.interimUpdate.value else "")
  }

  class FakeRouter {
    var radiusEntries: seq<RadiusEntry>
    var radiusIncoming: seq<Incoming>
    var pppAaa: PppAaa
    var userAaa: UserAaa
    var hotspotProfiles: seq<HotspotProfile>
    var commandError: Option<string>
    var nextId: nat

    ghost function State(): RouterState
      reads this
    {
      RouterState(radiusEntries, pppAaa, userAaa, hotspotProfiles, radiusIncoming, nextId, commandError)
    }

    constructor ()
      ensures State()
        == RouterState([], PppAaa(false, false, Some("1m"), "default"), UserAaa(false, false, Some("read"), []),
                                     [], [Incoming(false, 3799, false, "")], 1, None)
    {
      radiusEntries := [];
      radiusIncoming := [Incoming(false, 3799, false, "")];
      pppAaa := PppAaa(false, false, Some("1m"), "default");
      userAaa := UserAaa(false, false, Some("read"), []);
      hotspotProfiles := [];
      commandError := None;
      nextId := 1;
    }

    method RemoteId() returns (id: string)
      modifies this`nextId
      ensures id == RemoteIdText(old(nextId)) && nextId == old(nextId) + 1
    {
      id := RemoteIdText(nextId);
      nextId := nextId + 1;
    }

    method CreateRadiusEntry(v: RadiusValues) returns (id: string, error: Option<string>)
      modifies this
      ensures Written(State(), error) == Create(old(State()), v)
      ensures error.None? ==> id == RemoteIdText(old(nextId))
    {
      if commandError.Some? {
        return "", Some("COMMAND_FAILED");
      }
      id := RemoteId();
      radiusEntries := radiusEntries + [CreatedEntry(id, v)];
      error := None;
    }

    method UpdateRadiusEntry(id: string, v: RadiusValues) returns (error: Option<string>)
      modifies this
      ensures Written(State(), error) == Update(old(State()), id, v)
    {
      var i := 0;
      while i < |radiusEntries|
        invariant 0 <= i <= |radiusEntries|
        invariant State() == old(State())
        invariant forall k | 0 <= k < i :: radiusEntries[k].remoteId != id
      {
        if radiusEntries[i].remoteId == id {
          radiusEntries := radiusEntries[i := UpdatedEntry(radiusEntries[i], v)];
          return None;
        }
        i := i + 1;
      }
      error := Some("INVALID_RESPONSE");
    }

    method RemoveRadiusEntry(id: string)
      modifies this
      ensures Written(State(), None) == Remove(old(State()), id)
    {
      radiusEntries := WithoutId(radiusEntries, id);
    }

    method ConfigurePppAaa(v: PppSettings)
      modifies this
      ensures State() == old(State()).(ppp := ConfiguredPpp(old(pppAaa), v))
    {
      pppAaa := pppAaa.(useRadius := v.useRadius);
      pppAaa := pppAaa.(accounting := v.accounting);
      if v.interimSeconds.Some? {
        pppAaa := pppAaa.(interimUpdate := Some(FormatInterval(v.interimSeconds.value)));
      }
    }

    method ConfigureUserAaa(v: UserAaa)
      modifies this
      ensures State() == old(State()).(user := ConfiguredUser(old(userAaa), v))
    {
      userAaa := userAaa.(useRadius := v.useRadius, accounting := v.accounting);
      if OrNone(v.defaultGroup).Some? {
        userAaa := userAaa.(defaultGroup := v.defaultGroup);
      }
      userAaa := userAaa.(excludedGroups := v.excludedGroups);
    }

    method ConfigureHotspotRadius(name: string, v: HotspotSettings) returns (error: Option<string>)
      modifies this
      ensures Written(State(), error) == ConfigureHotspot(old(State()), name, v)
    {
      var i := 0;
      while i < |hotspotProfiles|
        invariant 0 <= i <= |hotspotProfiles|
        invariant State() == old(State())
        invariant forall k | 0 <= k < i :: hotspotProfiles[k].name != name
      {
        if hotspotProfiles[i].name == name {
          hotspotProfiles := hotspotProfiles[i := ConfiguredProfile(hotspotProfiles[i], v)];
          return None;
        }
        i := i + 1;
      }
      error := Some("COMMAND_FAILED");
    }

    method ConfigureRadiusIncoming(v: IncomingSettings) returns (error: Option<string>)
      modifies this
      ensures Written(State(), error) == ConfigureIncoming(old(State()), v)
    {
      if radiusIncoming == [] {
        return Some("IndexError");
      }
      var row := radiusIncoming[0].(accept := v.accept);
      row := row.(port := v.port, disabled := v.disabled);
      radiusIncoming := radiusIncoming[0 := row];
      error := None;
    }

    method GetRelevantServiceState() returns (s: RouterState)
      ensures s == State()
    {
      s := RouterState(radiusEntries, pppAaa, userAaa, hotspotProfiles, radiusIncoming, nextId, commandError);
    }
  }

  /* ---- the writes in plain terms ---- */

  /** Nothing but the RADIUS table and the id counter is touched. */
  predicate OnlyTable(s: RouterState, t: RouterState) {
    && t.ppp == s.ppp && t.user == s.user && t.hotspots == s.hotspots && t.incoming == s.incoming
    && t.commandError == s.commandError
  }

  lemma CreateMeans(s: RouterState, v: RadiusValues)
    ensures var w := Create(s, v); var t := w.state;
      && OnlyTable(s, t)
      && (s.commandError.Some? ==> w.error == Some("COMMAND_FAILED") && t == s)
      && (s.commandError.None? ==>
            && w.error.None? && t.nextId == s.nextId + 1
            && |t.entries| == |s.entries| + 1 && t.entries[..|s.entries|] == s.entries
            && var e := t.entries[|s.entries|];
               && e.remoteId == "*" + Digits(s.nextId) && e.address == Strip(v.address) && !e.disabled
               && e.authPort == Some(OrDefault(v.authPort, 1812))
               && e.accountingPort == Some(OrDefault(v.accountingPort, 1813))
               && e.timeout == Some(OrDefault(v.timeout, 3000))
               && e.srcAddress == (if v.srcAddress.None? then None else OrNone(Some(Strip(v.srcAddress.value))))
               && e.service == NormalizeServices(v.services)
               && e.realm.None? && e.domain.None? && e.calledId.None?)
  {}

  /** Services lose blank names and surrounding blanks; "ppp" in any case becomes "pppoe", other names stay. */
  lemma {:induction false} ServicesMean(a: seq<string>, b: seq<string>, name: string)
    ensures NormalizeServices(a + b) == NormalizeServices(a) + NormalizeServices(b)
    ensures NormalizeServices([]) == []
    ensures NormalizeServices([name]) ==
      if Strip(name) == "" then [] else if Lower(Strip(name)) == "ppp" then ["pppoe"] else [Strip(name)]
  {
    if a == [] {
      assert a + b == b;
    } else {
      assert (a + b)[1..] == a[1..] + b;
      ServicesMean(a[1..], b, name);
    }
  }

  lemma UpdateMeans(s: RouterState, id: string, v: RadiusValues)
    ensures var w := Update(s, id, v); var t := w.state;
      && OnlyTable(s, t) && t.nextId == s.nextId && |t.entries| == |s.entries|
      && (w.error.None? <==> exists i | 0 <= i < |s.entries| :: s.entries[i].remoteId == id)
      && (w.error.Some? ==> w.error == Some("INVALID_RESPONSE") && t == s)
      && forall i | 0 <= i < |s.entries| ::
           var e, u := s.entries[i], t.entries[i];
           if e.remoteId == id && forall k | 0 <= k < i :: s.entries[k].remoteId != id
           then && u.address == v.address && u.service == v.services && u.authPort == v.authPort
                && u.accountingPort == v.accountingPort && u.timeout == v.timeout && u.srcAddress == v.srcAddress
                && u.remoteId == e.remoteId && u.realm == e.realm && u.domain == e.domain && u.calledId == e.calledId
                && u.disabled == e.disabled
           else u == e
  {
    var j := FirstWithId(s.entries, id);
    assert j < |s.entries| ==> s.entries[j].remoteId == id;
  }

  /** Removal drops the entries with the id, one by one, and keeps the others in order. */
  lemma {:induction false} RemoveMeans(es: seq<RadiusEntry>, id: string, e: RadiusEntry)
    ensures WithoutId([], id) == []
    ensures WithoutId(es + [e], id) == if e.remoteId == id then WithoutId(es, id) else WithoutId(es, id) + [e]
  {
    if es == [] {
      assert es + [e] == [e];
    } else {
      assert (es + [e])[1..] == es[1..] + [e];
      RemoveMeans(es[1..], id, e);
    }
  }

  lemma RemovalTouches(s: RouterState, id: string)
    ensures var w := Remove(s, id);
      && w.error.None? && OnlyTable(s, w.state) && w.state.nextId == s.nextId
      && w.state.entries == WithoutId(s.entries, id)
  {}

  lemma PppWriteMeans(p: PppAaa, v: PppSettings)
    ensures var q := ConfiguredPpp(p, v);
      && q.useRadius == v.useRadius && q.accounting == v.accounting && q.defaultProfile == p.defaultProfile
      && (v.interimSeconds.None? ==> q.interimUpdate == p.interimUpdate)
      && (v.interimSeconds.Some? && v.interimSeconds.value >= 0 ==> PppInterimSeconds(q) == v.interimSeconds)
  {
    if v.interimSeconds.Some? {
      RoundTrip(v.interimSeconds.value);
    }
  }

  lemma UserWriteMeans(u: UserAaa, v: UserAaa)
    ensures var w := ConfiguredUser(u, v);
      && w.useRadius == v.useRadius && w.accounting == v.accounting && w.excludedGroups == v.excludedGroups
      && w.defaultGroup == if v.defaultGroup in {None, Some("")} then u.defaultGroup else v.defaultGroup
  {}

  lemma HotspotWriteMeans(s: RouterState, name: string, v: HotspotSettings)
    ensures var w := ConfigureHotspot(s, name, v); var t := w.state;
      && t == s.(hotspots := t.hotspots) && |t.hotspots| == |s.hotspots|
      && (w.error.None? <==> exists i | 0 <= i < |s.hotspots| :: s.hotspots[i].name == name)
      && (w.error.Some? ==> w.error == Some("COMMAND_FAILED") && t == s)
      && forall i | 0 <= i < |s.hotspots| ::
           var p, q := s.hotspots[i], t.hotspots[i];
           if p.name == name && forall k | 0 <= k < i :: s.hotspots[k].name != name
           then && q.useRadius == v.useRadius && q.radiusAccounting == v.radiusAccounting
                && q.name == p.name && q.remoteId == p.remoteId && q.locationName == p.locationName
                && q.radiusInterimUpdate == (if v.interimSeconds.Some? then Some(FormatInterval(v.interimSeconds.value))
                                             else p.radiusInterimUpdate)
           else q == p
  {
    var j := FirstProfile(s.hotspots, name);
    assert j < |s.hotspots| ==> s.hotspots[j].name == name;
  }

  lemma IncomingWriteMeans(s: RouterState, v: IncomingSettings)
    ensures var w := ConfigureIncoming(s, v); var t := w.state;
      && t == s.(incoming := t.incoming) && |t.incoming| == |s.incoming|
      && (w.error.Some? <==> s.incoming == [])
      && (s.incoming != [] ==>
            && t.incoming[0].accept == v.accept && t.incoming[0].port == v.port && t.incoming[0].disabled == v.disabled
            && t.incoming[0].address == s.incoming[0].address && t.incoming[1..] == s.incoming[1..])
  {}
}
