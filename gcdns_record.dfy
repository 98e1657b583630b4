/** The record reconciler of gcdns_record.py: `_get_record`, `create_record`,
    `remove_record`, and the validation, normalisation and dispatch steps of `main`. */
module GcdnsRecord {
  import opened CloudDns

  /** The module parameters the reconciler reads. */
  datatype Params = Params(state: DesiredState, record: string, zone: string, rtype: string,
                           values: seq<string>, ttl: int, overwrite: bool)

  /** The provider's scripted answers to `get_record`, to `delete_record`, to the
      create of the desired record, and to the create that rolls an overwrite back. */
  datatype Script = Script(lookup: Response, delete: Response, create: Response, rollback: Response)

  /** A run of `create_record` or `remove_record` as a value: how it is left, the
      mutating calls it issues, and the record it leaves under the identity key. */
  datatype Run = Run(flow: Flow, calls: seq<Call>, final: Option<RecordData>)

  /** The identity key of the record the parameters name. */
  function Key(params: Params): string
    requires |params.record| > 0
  {
    RecordKey(params.rtype, Normalize(params.record))
  }

  /** The record data the parameters describe. */
  function Desired(params: Params): RecordData
  {
    RecordData(params.ttl, params.values)
  }

  datatype RecordLookup = Found(record: Option<RecordData>) | LookupRaised(error: ProviderError)

  /** `_get_record`: asks the provider for the record stored under "<type>:<name>";
      "does not exist" is an absent record, every other error propagates. A provider
      answering Done answers from its state, raising RecordDoesNotExistError for a
      missing key. */
  function GetRecord(p: Provider, zone: Zone, rtype: string, name: string, resp: Response): (r: RecordLookup)
    reads p
    ensures r.Found? <==> resp.Done? || resp == Raise(RecordDoesNotExist)
    ensures r.LookupRaised? ==> r.error == resp.error
    ensures resp.Done? ==> (r.record.None? <==> RecordKey(rtype, name) !in p.RecordsOf(zone.domain))
    ensures r.Found? && r.record.Some? ==>
      resp.Done? && RecordKey(rtype, name) in p.RecordsOf(zone.domain) &&
      r.record.value == p.RecordsOf(zone.domain)[RecordKey(rtype, name)]
  {
    match resp
    case Done => Found(p.Lookup(zone.domain, RecordKey(rtype, name)))
    case Raise(RecordDoesNotExist) => Found(None)
    case Raise(e) => LookupRaised(e)
  }

  /** What `create_record` does, given the record currently stored under the key. */
  function CreateRun(domain: string, key: string, current: Option<RecordData>, desired: RecordData,
                     overwrite: bool, checkMode: bool, del: Response, create: Response, rollback: Response): (run: Run)
    // an identical record is left alone, without any call
    ensures current == Some(desired) ==> run == Run(Returned(false), [], current)
    // a differing record under overwrite protection fails and stays
    ensures current.Some? && current != Some(desired) && !overwrite ==>
      run == Run(Exited(OverwriteProtected, false), [], current)
    // a dry run issues no mutating call and leaves the record as it was
    ensures checkMode ==> run.calls == [] && run.final == current
    // changed is reported exactly when the stored record changed
    ensures !checkMode ==> (Catch(run.flow).changed <==> run.final != current)
    // a real run ends well exactly when the desired record is in place
    ensures !checkMode ==> (Catch(run.flow).Ok? <==> run.final == Some(desired))
    ensures run.final == current || run.final == Some(desired) || run.final == None
  {
    if current.Some? && current.value == desired then Run(Returned(false), [], current)
    else if current.Some? && !overwrite then Run(Exited(OverwriteProtected, false), [], current)
    else if checkMode then Run(Returned(true), [], current)
    else if current.None? then
      var calls := [CreateRecordCall(domain, key, desired)];
      match create
      case Done => Run(Returned(true), calls, Some(desired))
      case Raise(e) => Run(if e == InvalidRequest("invalid") then Exited(ValueInvalid, false) else Raised(e), calls, None)
    else
      var deleteCall := DeleteRecordCall(domain, key);
      match del
      case Raise(e) => Run(Raised(e), [deleteCall], current)
      case Done =>
        var calls := [deleteCall, CreateRecordCall(domain, key, desired)];
        match create
        case Done => Run(Returned(true), calls, Some(desired))
        case Raise(_) =>
          var withRollback := calls + [CreateRecordCall(domain, key, current.value)];
          match rollback
          case Done => Run(Exited(OverwriteRestored, false), withRollback, current)
          case Raise(_) => Run(Exited(OverwriteLost, true), withRollback, None)
  }

  /** What `remove_record` does, given the record currently stored under the key and
      the ttl and values the parameters give. */
  function RemoveRun(domain: string, key: string, current: Option<RecordData>, given: RecordData,
                     overwrite: bool, checkMode: bool, del: Response): (run: Run)
    ensures current.None? ==> run == Run(Returned(false), [], None)
    ensures current.Some? && !overwrite && current != Some(given) ==>
      run == Run(Exited(ValuesDiffer, false), [], current)
    ensures checkMode ==> run.calls == [] && run.final == current
    ensures !checkMode ==> (Catch(run.flow).changed <==> run.final != current)
    ensures run.final == current || run.final == None
  {
    if current.None? then Run(Returned(false), [], None)
    else if !overwrite && current.value != given then Run(Exited(ValuesDiffer, false), [], current)
    else if checkMode then Run(Returned(true), [], current)
    else
      match del
      case Done => Run(Returned(true), [DeleteRecordCall(domain, key)], None)
      case Raise(e) => Run(Raised(e), [DeleteRecordCall(domain, key)], current)
  }

  /** The reconciler `main` dispatches to for the desired state. */
  function Reconcile(domain: string, current: Option<RecordData>, params: Params, checkMode: bool, script: Script): Run
    requires |params.record| > 0
  {
    if params.state == Present then
      CreateRun(domain, Key(params), current, Desired(params), params.overwrite, checkMode,
                script.delete, script.create, script.rollback)
    else
      RemoveRun(domain, Key(params), current, Desired(params), params.overwrite, checkMode, script.delete)
  }

  /** The overwrite branch of `create_record`: Google Cloud DNS cannot update a record in
      place, so the stored record is deleted and the new one created; when that create
      fails, the original is created again before the run fails. */
  method ReplaceRecord(p: Provider, domain: string, rtype: string, name: string, stored: RecordData, data: RecordData,
                       script: Script) returns (flow: Flow)
    requires p.Valid() && domain in p.records && stored != data
    requires p.Lookup(domain, RecordKey(rtype, name)) == Some(stored)
    modifies p
    ensures p.Valid() && p.zones == old(p.zones) && p.records.Keys == old(p.records.Keys)
    ensures var run := CreateRun(domain, RecordKey(rtype, name), Some(stored), data, true, false,
                                 script.delete, script.create, script.rollback);
      flow == run.flow && p.calls == old(p.calls) + run.calls && p.Lookup(domain, RecordKey(rtype, name)) == run.final
    ensures forall d, k :: d != domain || k != RecordKey(rtype, name) ==> p.Lookup(d, k) == old(p.Lookup(d, k))
  {
    var err := p.DeleteRecord(domain, RecordKey(rtype, name), script.delete);
    if err.Some? {
      return Raised(err.value);
    }
    assert p.Lookup(domain, RecordKey(rtype, name)) == None;
    err := p.CreateRecord(domain, rtype, name, data, script.create);
    if err.Some? {
      assert p.Lookup(domain, RecordKey(rtype, name)) == None;
      var rollbackErr := p.CreateRecord(domain, rtype, name, stored, script.rollback);
      if rollbackErr.None? {
        return Exited(OverwriteRestored, false);
      }
      return Exited(OverwriteLost, true);
    }
    return Returned(true);
  }

  /** `create_record`: creates the record, or replaces a differing one by delete, create
      and, when that create fails, a rollback create of the original. */
  method CreateRecord(p: Provider, zone: Zone, record: Option<RecordData>, params: Params, checkMode: bool, script: Script)
    returns (flow: Flow)
    requires p.Valid() && zone in p.zones && |params.record| > 0
    requires record == p.Lookup(zone.domain, Key(params))
    modifies p
    ensures p.Valid() && p.zones == old(p.zones) && p.records.Keys == old(p.records.Keys)
    ensures var run := CreateRun(zone.domain, Key(params), record, Desired(params), params.overwrite, checkMode,
                                 script.delete, script.create, script.rollback);
      flow == run.flow && p.calls == old(p.calls) + run.calls && p.Lookup(zone.domain, Key(params)) == run.final
    ensures forall d, k :: d != zone.domain || k != Key(params) ==> p.Lookup(d, k) == old(p.Lookup(d, k))
    ensures p.calls == old(p.calls) ==> p.records == old(p.records)
  {
    var overwrite := params.overwrite;
    var recordName := params.record;
    var recordType := params.rtype;
    var data := RecordData(params.ttl, params.values);

    if recordName[|recordName| - 1] != '.' {
      recordName := recordName + ".";
    }
    assert recordName == Normalize(params.record);
    assert RecordKey(recordType, recordName) == Key(params) && data == Desired(params);

    if record.Some? {
      var matches := true;
      if params.ttl != record.value.ttl || params.values != record.value.rrdatas {
        matches := false;
      }
      if matches {
        return Returned(false);
      }
      if !overwrite {
        return Exited(OverwriteProtected, false);
      }
    }

    if !checkMode {
      if record.None? {
        var err := p.CreateRecord(zone.domain, recordType, recordName, data, script.create);
        if err.Some? {
          if err.value == InvalidRequest("invalid") {
            return Exited(ValueInvalid, false);
          }
          return Raised(err.value);
        }
      } else {
        flow := ReplaceRecord(p, zone.domain, recordType, recordName, record.value, data, script);
        return;
      }
    }
    return Returned(true);
  }

  /** `remove_record`: deletes the record, after checking under overwrite protection
      that the given ttl and values are the stored ones. */
  method RemoveRecord(p: Provider, zone: Zone, record: Option<RecordData>, params: Params, checkMode: bool, script: Script)
    returns (flow: Flow)
    requires p.Valid() && zone in p.zones && |params.record| > 0
    requires record == p.Lookup(zone.domain, Key(params))
    modifies p
    ensures p.Valid() && p.zones == old(p.zones) && p.records.Keys == old(p.records.Keys)
    ensures var run := RemoveRun(zone.domain, Key(params), record, Desired(params), params.overwrite, checkMode, script.delete);
      flow == run.flow && p.calls == old(p.calls) + run.calls && p.Lookup(zone.domain, Key(params)) == run.final
    ensures forall d, k :: d != zone.domain || k != Key(params) ==> p.Lookup(d, k) == old(p.Lookup(d, k))
    ensures p.calls == old(p.calls) ==> p.records == old(p.records)
  {
    var overwrite := params.overwrite;
    var ttl := params.ttl;
    var values := params.values;

    if record.None? {
      return Returned(false);
    }
    if !overwrite {
      if values != record.value.rrdatas || ttl != record.value.ttl {
        return Exited(ValuesDiffer, false);
      }
    }
    if !checkMode {
      var err := p.DeleteRecord(zone.domain, Key(params), script.delete);
      if err.Some? {
        return Raised(err.value);
      }
    }
    return Returned(true);
  }

  /** The checks `main` makes before it looks anything up. */
  predicate Admitted(params: Params, supported: set<string>)
  {
    params.rtype in supported && params.ttl >= 0
  }

  /** `main` from the normalisation of the names on: validation, the zone and record
      lookups, and the dispatch whose escaping exceptions become the generic failure.
      `supported` is the provider's set of record types. */
  method RecordMain(p: Provider, params: Params, supported: set<string>, checkMode: bool, script: Script)
    returns (outcome: Outcome)
    requires p.Valid() && |params.record| > 0 && |params.zone| > 0
    requires script.lookup == Raise(RecordDoesNotExist) ==> Key(params) !in p.RecordsOf(Normalize(params.zone))
    modifies p
    ensures p.Valid() && p.zones == old(p.zones) && p.records.Keys == old(p.records.Keys)
    // only the record under the parameters' identity key may change ...
    ensures forall d, k :: d != Normalize(params.zone) || k != Key(params) ==> p.Lookup(d, k) == old(p.Lookup(d, k))
    // ... and changed says exactly whether it did
    ensures !checkMode ==>
      (outcome.changed <==> p.Lookup(Normalize(params.zone), Key(params)) != old(p.Lookup(Normalize(params.zone), Key(params))))
    ensures checkMode ==> p.records == old(p.records) && p.calls == old(p.calls)
    ensures params.rtype !in supported ==> outcome == Fail(TypeNotSupported, false) && p.calls == old(p.calls)
    ensures params.rtype in supported && params.ttl < 0 ==> outcome == Fail(NegativeTtl, false) && p.calls == old(p.calls)
    ensures Admitted(params, supported) && FirstZone(p.zones, Normalize(params.zone)).None? ==>
      outcome == Fail(ZoneNotFound(Normalize(params.zone)), false) && p.calls == old(p.calls)
    ensures Admitted(params, supported) && FirstZone(p.zones, Normalize(params.zone)).Some? && script.lookup.Raise? ==>
      if script.lookup.error.InvalidRequest? then
        outcome == Fail(RecordNameInvalid(Normalize(params.record)), false) && p.calls == old(p.calls)
      else if script.lookup.error != RecordDoesNotExist then
        outcome == Fail(Uncaught, false) && p.calls == old(p.calls)
      else
        var run := Reconcile(Normalize(params.zone), None, params, checkMode, script);
        && outcome == Catch(run.flow) && p.calls == old(p.calls) + run.calls
        && p.Lookup(Normalize(params.zone), Key(params)) == run.final
    ensures Admitted(params, supported) && FirstZone(p.zones, Normalize(params.zone)).Some? && script.lookup.Done? ==>
      var run := Reconcile(Normalize(params.zone), old(p.Lookup(Normalize(params.zone), Key(params))), params, checkMode, script);
      && outcome == Catch(run.flow) && p.calls == old(p.calls) + run.calls
      && p.Lookup(Normalize(params.zone), Key(params)) == run.final
  {
    var zoneName := Normalize(params.zone);
    var recordName := Normalize(params.record);

    if params.rtype !in supported {
      return Fail(TypeNotSupported, false);
    }
    if params.ttl < 0 {
      return Fail(NegativeTtl, false);
    }

    var zone := GetZone(p, zoneName);
    if zone.None? {
      return Fail(ZoneNotFound(zoneName), false);
    }

    var lookup := GetRecord(p, zone.value, params.rtype, recordName, script.lookup);
    if lookup.LookupRaised? {
      if lookup.error.InvalidRequest? {
        return Fail(RecordNameInvalid(recordName), false);
      }
      return Fail(Uncaught, false);
    }

    var flow: Flow;
    if params.state == Present {
      flow := CreateRecord(p, zone.value, lookup.record, params, checkMode, script);
    } else {
      flow := RemoveRecord(p, zone.value, lookup.record, params, checkMode, script);
    }
    outcome := Catch(flow);
  }

  /** The overwrite path once the old record is deleted has three terminal states:
      replaced, rolled back (fail, changed=False, original back in place) and lost
      (fail, changed=True, nothing under the key). */
  lemma OverwriteTerminalStates(domain: string, key: string, stored: RecordData, desired: RecordData,
                                create: Response, rollback: Response)
    requires stored != desired
    ensures var run := CreateRun(domain, key, Some(stored), desired, true, false, Done, create, rollback);
      && (create.Done? ==> Catch(run.flow) == Ok(true) && run.final == Some(desired))
      && (create.Raise? && rollback.Done? ==> Catch(run.flow) == Fail(OverwriteRestored, false) && run.final == Some(stored))
      && (create.Raise? && rollback.Raise? ==> Catch(run.flow) == Fail(OverwriteLost, true) && run.final == None)
      && run.calls == [DeleteRecordCall(domain, key), CreateRecordCall(domain, key, desired)] +
                      (if create.Raise? then [CreateRecordCall(domain, key, stored)] else [])
  {
  }

  /** A failed `delete_record` on the overwrite path escapes to `main`: the generic
      failure with changed=False, and the record untouched. */
  lemma OverwriteDeleteFails(domain: string, key: string, stored: RecordData, desired: RecordData,
                             e: ProviderError, create: Response, rollback: Response)
    requires stored != desired
    ensures var run := CreateRun(domain, key, Some(stored), desired, true, false, Raise(e), create, rollback);
      Catch(run.flow) == Fail(Unexpected, false) && run.final == Some(stored) && run.calls == [DeleteRecordCall(domain, key)]
  {
  }

  /** A missing record is created; 'invalid' is the "value is invalid" failure, any other
      error the generic one, all failures with changed=False and no record left. */
  lemma CreateMissing(domain: string, key: string, desired: RecordData, overwrite: bool,
                      del: Response, create: Response, rollback: Response)
    ensures var run := CreateRun(domain, key, None, desired, overwrite, false, del, create, rollback);
      && run.calls == [CreateRecordCall(domain, key, desired)]
      && (create.Done? ==> Catch(run.flow) == Ok(true) && run.final == Some(desired))
      && (create == Raise(InvalidRequest("invalid")) ==> Catch(run.flow) == Fail(ValueInvalid, false) && run.final == None)
      && (create.Raise? && create.error != InvalidRequest("invalid") ==> Catch(run.flow) == Fail(Unexpected, false) && run.final == None)
  {
  }

  /** Reconciling the same present record twice: the second run, from what the first one
      left, reports changed=False and issues no call, whatever the provider would answer. */
  lemma CreateIdempotent(domain: string, key: string, current: Option<RecordData>, desired: RecordData, overwrite: bool,
                         del: Response, create: Response, rollback: Response,
                         del2: Response, create2: Response, rollback2: Response)
    requires CreateRun(domain, key, current, desired, overwrite, false, del, create, rollback).flow.Returned?
    ensures var first := CreateRun(domain, key, current, desired, overwrite, false, del, create, rollback);
      CreateRun(domain, key, first.final, desired, overwrite, false, del2, create2, rollback2) == Run(Returned(false), [], first.final)
  {
  }

  /** A dry run of `create_record` reports what a run whose calls all succeed reports. */
  lemma CreateCheckModeAgrees(domain: string, key: string, current: Option<RecordData>, desired: RecordData, overwrite: bool,
                              del: Response, create: Response, rollback: Response)
    ensures CreateRun(domain, key, current, desired, overwrite, true, del, create, rollback).flow ==
            CreateRun(domain, key, current, desired, overwrite, false, Done, Done, Done).flow
  {
  }

  /** A stored record that passes the protection check is deleted: changed=True. */
  lemma RemoveDeletes(domain: string, key: string, stored: RecordData, given: RecordData, overwrite: bool)
    requires overwrite || stored == given
    ensures RemoveRun(domain, key, Some(stored), given, overwrite, false, Done) ==
            Run(Returned(true), [DeleteRecordCall(domain, key)], None)
  {
  }

  /** A dry run of `remove_record` reports what a run whose delete succeeds reports. */
  lemma RemoveCheckModeAgrees(domain: string, key: string, current: Option<RecordData>, given: RecordData,
                              overwrite: bool, del: Response)
    ensures RemoveRun(domain, key, current, given, overwrite, true, del).flow ==
            RemoveRun(domain, key, current, given, overwrite, false, Done).flow
  {
  }

  /** Reconciling an absent record twice: the second run reports changed=False, no call. */
  lemma RemoveIdempotent(domain: string, key: string, current: Option<RecordData>, given: RecordData,
                         overwrite: bool, del: Response, del2: Response)
    requires RemoveRun(domain, key, current, given, overwrite, false, del).flow.Returned?
    ensures var first := RemoveRun(domain, key, current, given, overwrite, false, del);
      RemoveRun(domain, key, first.final, given, overwrite, false, del2) == Run(Returned(false), [], None)
  {
  }

  /** rrdatas are an ordered list: two distinct values given in the other order are a
      difference, which overwrite protection refuses. */
  lemma ReorderedValuesDiffer(domain: string, key: string, ttl: int, vs: seq<string>,
                              del: Response, create: Response, rollback: Response)
    requires |vs| == 2 && vs[0] != vs[1]
    ensures CreateRun(domain, key, Some(RecordData(ttl, vs)), RecordData(ttl, [vs[1], vs[0]]),
                      false, false, del, create, rollback) ==
            Run(Exited(OverwriteProtected, false), [], Some(RecordData(ttl, vs)))
  {
    assert vs[0] != [vs[1], vs[0]][0];
  }
}

/** Whole runs of the record module against a concrete provider. */
module GcdnsRecordScenarios {
  import opened CloudDns
  import opened GcdnsRecord

  /** The names the scenarios below use, normalised, and their identity keys. */
  lemma Names()
    ensures Normalize("foo.com") == Normalize("foo.com.") == "foo.com."
    ensures Normalize("www.foo.com") == Normalize("www.foo.com.") == "www.foo.com."
    ensures Normalize("mail.foo.com") == "mail.foo.com."
    ensures RecordKey("A", "www.foo.com.") == "A:www.foo.com."
    ensures RecordKey("A", "mail.foo.com.") == "A:mail.foo.com."
  {
    assert "foo.com" + "." == "foo.com.";
    assert "www.foo.com" + "." == "www.foo.com.";
    assert "mail.foo.com" + "." == "mail.foo.com.";
    assert "A" + ":" + "www.foo.com." == "A:www.foo.com.";
    assert "A" + ":" + "mail.foo.com." == "A:mail.foo.com.";
  }

  /** A provider holding the one zone "foo.com." and, under `key`, the record `existing`. */
  method FooProvider(ns: RecordData, soa: RecordData, key: string, existing: Option<RecordData>) returns (p: Provider)
    ensures fresh(p) && p.Valid() && p.calls == []
    ensures p.zones == [Zone("foo.com.", "")] && FirstZone(p.zones, "foo.com.") == Some(Zone("foo.com.", ""))
    ensures p.Lookup("foo.com.", key) == existing
  {
    var m: map<string, RecordData> := if existing.Some? then map[key := existing.value] else map[];
    p := new Provider([Zone("foo.com.", "")], map["foo.com." := m], ns, soa);
    assert p.RecordsOf("foo.com.") == m;
  }

  /** Reconciling the same present record twice: changed=True, then changed=False with
      no further call; "foo.com" and "foo.com." name the same zone and record. */
  method PresentTwice(ns: RecordData, soa: RecordData) returns (first: Outcome, second: Outcome, stored: Option<RecordData>)
    ensures first == Ok(true) && second == Ok(false)
    ensures stored == Some(RecordData(300, ["1.2.3.4"]))
  {
    Names();
    var p := FooProvider(ns, soa, "A:www.foo.com.", None);
    var script := Script(Done, Done, Done, Done);
    var bare := Params(Present, "www.foo.com", "foo.com", "A", ["1.2.3.4"], 300, false);
    var dotted := Params(Present, "www.foo.com.", "foo.com.", "A", ["1.2.3.4"], 300, false);
    assert Admitted(bare, {"A"}) && Admitted(dotted, {"A"});
    first := RecordMain(p, bare, {"A"}, false, script);
    assert p.Lookup("foo.com.", "A:www.foo.com.") == Some(Desired(bare));
    second := RecordMain(p, dotted, {"A"}, false, script);
    stored := p.Lookup("foo.com.", "A:www.foo.com.");
  }

  /** An existing [1.2.3.4] and a desired [5.6.7.8]: with overwrite off the run fails,
      changed=False, and the record stays; with overwrite on and the provider accepting,
      changed=True and [5.6.7.8] is stored. */
  method Overwrite(ns: RecordData, soa: RecordData, overwrite: bool) returns (outcome: Outcome, stored: Option<RecordData>)
    ensures !overwrite ==> outcome == Fail(OverwriteProtected, false) && stored == Some(RecordData(300, ["1.2.3.4"]))
    ensures overwrite ==> outcome == Ok(true) && stored == Some(RecordData(300, ["5.6.7.8"]))
  {
    Names();
    var existing := RecordData(300, ["1.2.3.4"]);
    var p := FooProvider(ns, soa, "A:mail.foo.com.", Some(existing));
    var params := Params(Present, "mail.foo.com", "foo.com", "A", ["5.6.7.8"], 300, overwrite);
    assert Admitted(params, {"A"});
    assert existing != Desired(params) by { assert existing.rrdatas[0] != Desired(params).rrdatas[0]; }
    outcome := RecordMain(p, params, {"A"}, false, Script(Done, Done, Done, Done));
    stored := p.Lookup("foo.com.", "A:mail.foo.com.");
  }

  /** The overwrite's create fails: a rollback that succeeds leaves the original record
      and reports changed=False; one that fails leaves no record and reports changed=True. */
  method OverwriteRollback(ns: RecordData, soa: RecordData, rollback: Response) returns (outcome: Outcome, stored: Option<RecordData>)
    ensures rollback.Done? ==> outcome == Fail(OverwriteRestored, false) && stored == Some(RecordData(300, ["1.2.3.4"]))
    ensures rollback.Raise? ==> outcome == Fail(OverwriteLost, true) && stored == None
  {
    Names();
    var existing := RecordData(300, ["1.2.3.4"]);
    var p := FooProvider(ns, soa, "A:mail.foo.com.", Some(existing));
    var params := Params(Present, "mail.foo.com", "foo.com", "A", ["not-an-address"], 300, true);
    assert Admitted(params, {"A"});
    assert existing != Desired(params) by { assert existing.rrdatas[0] != Desired(params).rrdatas[0]; }
    outcome := RecordMain(p, params, {"A"}, false, Script(Done, Done, Raise(InvalidRequest("invalid")), rollback));
    stored := p.Lookup("foo.com.", "A:mail.foo.com.");
  }
}
