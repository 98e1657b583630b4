/** The zone reconciler of gcdns_zone.py: `create_zone`, `remove_zone`, and the
    normalisation and dispatch steps of `main` (the zone scan `_get_zone` is
    CloudDns.GetZone). */
module GcdnsZone {
  import opened CloudDns

  /** The module parameters the reconciler reads. */
  datatype Params = Params(state: DesiredState, zone: string, description: string, requireExtra: bool)

  /** The provider's scripted answers to `create_zone`, to `zone.list_records()` and to
      `delete_zone`. */
  datatype Script = Script(create: Response, list: Response, delete: Response)

  /** A run of `create_zone` or `remove_zone` as a value: how it is left, the mutating
      calls it issues, and whether the provider's zone set changed. */
  datatype Run = Run(flow: Flow, calls: seq<Call>, applied: bool)

  /** What `create_zone` does, given the zone `_get_zone` found for the domain. */
  function CreateRun(found: Option<Zone>, domain: string, description: string, requireExtra: bool,
                     checkMode: bool, create: Response): (run: Run)
    // an existing zone is never recreated; without require_extra its description is ignored
    ensures found.Some? && !requireExtra ==> run == Run(Returned(false), [], false)
    // with require_extra a differing description fails, a matching one is a no-op
    ensures found.Some? && requireExtra && found.value.description != description ==>
      run == Run(Exited(DescriptionDiffers, false), [], false)
    ensures found.Some? && requireExtra && found.value.description == description ==>
      run == Run(Returned(false), [], false)
    // a dry run for a missing zone reports changed=True without calling the provider
    ensures found.None? && checkMode ==> run == Run(Returned(true), [], false)
    ensures found.None? && !checkMode ==> run.calls == [CreateZoneCall(domain, description)]
    ensures run.applied <==> found.None? && !checkMode && create.Done?
    // changed is reported exactly when the zone was created
    ensures !checkMode ==> (Catch(run.flow).changed <==> run.applied)
  {
    if found.Some? && !requireExtra then Run(Returned(false), [], false)
    else if found.Some? && requireExtra then
      if found.value.description != description then Run(Exited(DescriptionDiffers, false), [], false)
      else Run(Returned(false), [], false)
    else if checkMode then Run(Returned(true), [], false)
    else
      var calls := [CreateZoneCall(domain, description)];
      match create
      case Done => Run(Returned(true), calls, true)
      case Raise(ResourceExists) =>
        Run(if requireExtra then Exited(ExistsUnverified, false) else Returned(false), calls, false)
      case Raise(InvalidRequest(code)) =>
        var flow :=
          if code == "invalid" then Exited(ZoneNameInvalid, false)
          else if code == "managedZoneDnsNameNotAvailable" then Exited(ZoneNameReserved, false)
          else Raised(InvalidRequest(code));
        Run(flow, calls, false)
      case Raise(e) => Run(Raised(e), calls, false)
  }

  /** What `remove_zone` does, given the zone `_get_zone` found and the number of
      records `list_records` counts in it. */
  function RemoveRun(found: Option<Zone>, count: nat, checkMode: bool, list: Response, del: Response): (run: Run)
    ensures found.None? ==> run == Run(Returned(false), [], false)
    // more than the NS and SOA records: fail, and delete is never attempted
    ensures found.Some? && list.Done? && count > 2 ==>
      run == Run(Exited(NonEmptyZone(found.value.domain), false), [], false)
    // delete is attempted exactly on a found, empty zone outside a dry run
    ensures run.calls == if found.Some? && list.Done? && count <= 2 && !checkMode
                         then [DeleteZoneCall(found.value.domain)] else []
    ensures run.applied <==> found.Some? && list.Done? && count <= 2 && !checkMode && del.Done?
    // changed is reported exactly when the zone was deleted
    ensures !checkMode ==> (Catch(run.flow).changed <==> run.applied)
    ensures checkMode && found.Some? && list.Done? && count <= 2 ==> run.flow == Returned(true)
  {
    if found.None? then Run(Returned(false), [], false)
    else
      match list
      case Raise(e) => Run(Raised(e), [], false)
      case Done =>
        if count > 2 then Run(Exited(NonEmptyZone(found.value.domain), false), [], false)
        else if checkMode then Run(Returned(true), [], false)
        else
          var calls := [DeleteZoneCall(found.value.domain)];
          match del
          case Done => Run(Returned(true), calls, true)
          case Raise(ResourceNotFound) => Run(Returned(false), calls, false)
          case Raise(InvalidRequest(code)) =>
            var flow := if code == "containerNotEmpty" then Exited(NonEmptyZone(found.value.domain), false)
                        else Raised(InvalidRequest(code));
            Run(flow, calls, false)
          case Raise(e) => Run(Raised(e), calls, false)
  }

  /** The reconciler `main` dispatches to for the desired state. */
  function Reconcile(found: Option<Zone>, count: nat, params: Params, checkMode: bool, script: Script): Run
    requires |params.zone| > 0
  {
    if params.state == Present then
      CreateRun(found, Normalize(params.zone), params.description, params.requireExtra, checkMode, script.create)
    else
      RemoveRun(found, count, checkMode, script.list, script.delete)
  }

  /** `create_zone`: creates the zone when `_get_zone` found none, classifying the
      provider's refusals. */
  method CreateZone(p: Provider, zone: Option<Zone>, params: Params, checkMode: bool, script: Script)
    returns (flow: Flow)
    requires p.Valid() && |params.zone| > 0
    requires zone == FirstZone(p.zones, Normalize(params.zone))
    modifies p
    ensures p.Valid()
    ensures var domain := Normalize(params.zone);
      var run := CreateRun(zone, domain, params.description, params.requireExtra, checkMode, script.create);
      && flow == run.flow
      && p.calls == old(p.calls) + run.calls
      && p.zones == old(p.zones) + (if run.applied then [Zone(domain, params.description)] else [])
      && p.records == if run.applied then old(p.records)[domain := p.SystemRecords(domain)] else old(p.records)
  {
    var description := params.description;
    var requireExtra := params.requireExtra;
    var zoneName := params.zone;

    if zoneName[|zoneName| - 1] != '.' {
      zoneName := zoneName + ".";
    }
    assert zoneName == Normalize(params.zone);

    if zone.Some? && !requireExtra {
      return Returned(false);
    } else if zone.Some? && requireExtra {
      if zone.value.description != description {
        return Exited(DescriptionDiffers, false);
      }
      return Returned(false);
    }

    if !checkMode {
      var err := p.CreateZone(zoneName, description, script.create);
      if err.Some? {
        match err.value
        case ResourceExists =>
          if requireExtra {
            return Exited(ExistsUnverified, false);
          }
          return Returned(false);
        case InvalidRequest(code) =>
          if code == "invalid" {
            return Exited(ZoneNameInvalid, false);
          }
          if code == "managedZoneDnsNameNotAvailable" {
            return Exited(ZoneNameReserved, false);
          }
          return Raised(err.value);
        case _ =>
          return Raised(err.value);
      }
    }
    return Returned(true);
  }

  /** `remove_zone`: deletes the zone when it holds no more than its NS and SOA
      records, tolerating a zone that vanished first. */
  method RemoveZone(p: Provider, zone: Option<Zone>, checkMode: bool, script: Script) returns (flow: Flow)
    requires p.Valid() && (zone.Some? ==> zone.value in p.zones)
    modifies p
    ensures p.Valid()
    ensures var count := if zone.Some? then old(p.RecordCount(zone.value.domain)) else 0;
      var run := RemoveRun(zone, count, checkMode, script.list, script.delete);
      && flow == run.flow
      && p.calls == old(p.calls) + run.calls
      && p.zones == (if run.applied then Without(old(p.zones), zone.value.domain) else old(p.zones))
      && p.records == (if run.applied then old(p.records) - {zone.value.domain} else old(p.records))
  {
    if zone.None? {
      return Returned(false);
    }

    // zone.list_records()
    if script.list.Raise? {
      return Raised(script.list.error);
    }
    if p.RecordCount(zone.value.domain) > 2 {
      return Exited(NonEmptyZone(zone.value.domain), false);
    }

    if !checkMode {
      var err := p.DeleteZone(zone.value.domain, script.delete);
      if err.Some? {
        match err.value
        case ResourceNotFound =>
          return Returned(false);
        case InvalidRequest(code) =>
          if code == "containerNotEmpty" {
            return Exited(NonEmptyZone(zone.value.domain), false);
          }
          return Raised(err.value);
        case _ =>
          return Raised(err.value);
      }
    }
    return Returned(true);
  }

  /** `main` from the normalisation of the zone name on: the zone scan, and the
      dispatch whose escaping exceptions become the generic failure. */
  method ZoneMain(p: Provider, params: Params, checkMode: bool, script: Script) returns (outcome: Outcome)
    requires p.Valid() && |params.zone| > 0
    modifies p
    ensures p.Valid()
    ensures var domain := Normalize(params.zone);
      var run := Reconcile(FirstZone(old(p.zones), domain), old(p.RecordCount(domain)), params, checkMode, script);
      && outcome == Catch(run.flow) && p.calls == old(p.calls) + run.calls
      && p.zones == (if !run.applied then old(p.zones)
                     else if params.state == Present then old(p.zones) + [Zone(domain, params.description)]
                     else Without(old(p.zones), domain))
      && p.records == (if !run.applied then old(p.records)
                       else if params.state == Present then old(p.records)[domain := p.SystemRecords(domain)]
                       else old(p.records) - {domain})
    // changed says exactly whether the zone set changed
    ensures !checkMode ==> (outcome.changed <==> p.zones != old(p.zones))
    ensures checkMode ==> p.zones == old(p.zones) && p.records == old(p.records) && p.calls == old(p.calls)
    // a run that changed something left the desired state in place
    ensures !checkMode && outcome.changed && params.state == Present ==>
      FirstZone(p.zones, Normalize(params.zone)) == Some(Zone(Normalize(params.zone), params.description)) &&
      p.RecordCount(Normalize(params.zone)) == 2
    ensures !checkMode && outcome.changed && params.state == Absent ==>
      FirstZone(p.zones, Normalize(params.zone)).None?
  {
    var zoneName := Normalize(params.zone);
    var zone := GetZone(p, zoneName);

    var flow: Flow;
    if params.state == Present {
      flow := CreateZone(p, zone, params, checkMode, script);
      if !checkMode && Catch(flow).changed {
        FirstZoneAppend(old(p.zones), Zone(zoneName, params.description));
      }
    } else {
      flow := RemoveZone(p, zone, checkMode, script);
    }
    outcome := Catch(flow);
  }

  /** The creation errors: every one reports changed=False; a lost creation race is
      tolerated unless require_extra asks for the attributes to be verified. */
  lemma CreationErrors(domain: string, description: string, requireExtra: bool, e: ProviderError)
    ensures var o := Catch(CreateRun(None, domain, description, requireExtra, false, Raise(e)).flow);
      && !o.changed
      && (e == ResourceExists ==> o == if requireExtra then Fail(ExistsUnverified, false) else Ok(false))
      && (e == InvalidRequest("invalid") ==> o == Fail(ZoneNameInvalid, false))
      && (e == InvalidRequest("managedZoneDnsNameNotAvailable") ==> o == Fail(ZoneNameReserved, false))
      && (e != ResourceExists && e != InvalidRequest("invalid") && e != InvalidRequest("managedZoneDnsNameNotAvailable") ==>
            o == Fail(Unexpected, false))
  {
  }

  /** The delete races: a zone gone first is a no-op, one that filled up meanwhile is the
      "non-empty" failure, anything else the generic failure; all with changed=False. */
  lemma DeleteRaces(z: Zone, count: nat, e: ProviderError)
    requires count <= 2
    ensures var o := Catch(RemoveRun(Some(z), count, false, Done, Raise(e)).flow);
      && !o.changed
      && (e == ResourceNotFound ==> o == Ok(false))
      && (e == InvalidRequest("containerNotEmpty") ==> o == Fail(NonEmptyZone(z.domain), false))
      && (e != ResourceNotFound && e != InvalidRequest("containerNotEmpty") ==> o == Fail(Unexpected, false))
  {
  }

  /** A zone holding its two system records and one more is refused and kept; one
      holding just the two is deleted. */
  lemma EmptinessGuard(z: Zone)
    ensures Catch(RemoveRun(Some(z), 3, false, Done, Done).flow) == Fail(NonEmptyZone(z.domain), false)
    ensures RemoveRun(Some(z), 2, false, Done, Done) == Run(Returned(true), [DeleteZoneCall(z.domain)], true)
  {
  }

  /** A dry run reports what a run whose mutating call succeeds reports. */
  lemma CheckModeAgrees(found: Option<Zone>, count: nat, params: Params, script: Script)
    requires |params.zone| > 0
    ensures Reconcile(found, count, params, true, script).flow ==
            Reconcile(found, count, params, false, Script(Done, script.list, Done)).flow
    ensures Reconcile(found, count, params, true, script).calls == []
  {
  }

  /** Creating the zone, then reconciling again against the resulting listing, is a
      no-op the second time. */
  lemma CreateIdempotent(zones: seq<Zone>, domain: string, description: string, requireExtra: bool,
                         create2: Response)
    requires FirstZone(zones, domain).None?
    ensures CreateRun(FirstZone(zones + [Zone(domain, description)], domain), domain, description, requireExtra, false, create2) ==
            Run(Returned(false), [], false)
  {
    FirstZoneAppend(zones, Zone(domain, description));
  }

  /** Removing the zone, then reconciling again against the resulting listing, is a
      no-op the second time. */
  lemma RemoveIdempotent(zones: seq<Zone>, domain: string, count: nat, list: Response, del: Response)
    ensures FirstZone(Without(zones, domain), domain).None?
    ensures RemoveRun(FirstZone(Without(zones, domain), domain), count, false, list, del) == Run(Returned(false), [], false)
  {
  }
}

/** Whole runs of the zone module against a concrete provider. */
module GcdnsZoneScenarios {
  import opened CloudDns
  import opened GcdnsZone

  /** A zone with its two system records and one user record is refused and kept; a
      zone with just the two system records is deleted. */
  method RemoveGuard(ns: RecordData, soa: RecordData, extra: bool) returns (outcome: Outcome, zones: seq<Zone>)
    ensures extra ==> outcome == Fail(NonEmptyZone("bar.com."), false) && zones == [Zone("bar.com.", "")]
    ensures !extra ==> outcome == Ok(true) && zones == []
  {
    var system := map["NS:bar.com." := ns, "SOA:bar.com." := soa];
    var held := if extra then system["A:www.bar.com." := RecordData(300, ["1.2.3.4"])] else system;
    assert "NS:bar.com."[0] != "SOA:bar.com."[0];
    assert |system| == 2;
    assert "A:www.bar.com." !in system;
    assert Without([Zone("bar.com.", "")], "bar.com.") == [];
    var p := new Provider([Zone("bar.com.", "")], map["bar.com." := held], ns, soa);
    assert Normalize("bar.com") == "bar.com.";
    outcome := ZoneMain(p, Params(Absent, "bar.com", "", false), false, Script(Done, Done, Done));
    zones := p.zones;
  }

  /** Creating a missing zone, then asking for it again: changed=True, then
      changed=False; in check mode both runs report changed=True and call nothing. */
  method CreateTwice(ns: RecordData, soa: RecordData, checkMode: bool) returns (first: Outcome, second: Outcome, calls: seq<Call>)
    ensures first == Ok(true)
    ensures !checkMode ==> second == Ok(false) && calls == [CreateZoneCall("bar.com.", "A great zone")]
    ensures checkMode ==> second == Ok(true) && calls == []
  {
    var p := new Provider([], map[], ns, soa);
    var params := Params(Present, "bar.com", "A great zone", true);
    assert Normalize("bar.com") == "bar.com.";
    first := ZoneMain(p, params, checkMode, Script(Done, Done, Done));
    second := ZoneMain(p, params, checkMode, Script(Done, Done, Done));
    calls := p.calls;
  }
}
