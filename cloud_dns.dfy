/** Vocabulary shared by the two Google Cloud DNS modules: DNS names and record
    identity keys, the provider's state and its remote calls, the zone scan both
    modules perform, and the way a run ends. */
module CloudDns {

  datatype Option<T> = None | Some(value: T)

  /** The `data` dictionary of a resource record: its ttl and its ordered rrdatas. */
  datatype RecordData = RecordData(ttl: int, rrdatas: seq<string>)

  /** A managed zone as the provider lists it: its domain and the description kept in
      its `extra` attributes. */
  datatype Zone = Zone(domain: string, description: string)

  /** The exceptions a provider call can raise, as far as the modules tell them apart. */
  datatype ProviderError =
    | InvalidRequest(code: string)  // InvalidRequestError, with the error code Google reports
    | ResourceExists                // ResourceExistsError
    | ResourceNotFound              // ResourceNotFoundError
    | RecordDoesNotExist            // RecordDoesNotExistError
    | OtherError                    // any other exception

  /** The scripted answer of the provider to one remote call. */
  datatype Response = Done | Raise(error: ProviderError)

  function ErrorOf(resp: Response): Option<ProviderError>
  {
    if resp.Done? then None else Some(resp.error)
  }

  /** A mutating call issued to the provider (whatever its answer). */
  datatype Call =
    | CreateRecordCall(domain: string, key: string, data: RecordData)
    | DeleteRecordCall(domain: string, key: string)
    | CreateZoneCall(domain: string, description: string)
    | DeleteZoneCall(domain: string)

  /** Why a run failed; each alternative stands for one `fail_json` message. */
  datatype Reason =
    | TypeNotSupported              // the record type is not one the provider knows
    | NegativeTtl                   // the ttl is below zero
    | ZoneNotFound(zone: string)    // no listed zone has the normalised zone name
    | RecordNameInvalid(record: string) // the lookup was refused as an invalid request
    | OverwriteProtected            // a differing record exists and overwrite is off
    | ValueInvalid                  // the create was refused with code 'invalid'
    | OverwriteRestored             // the replacing create failed, the rollback succeeded
    | OverwriteLost                 // the replacing create and the rollback both failed
    | ValuesDiffer                  // removal under overwrite protection with other values
    | DescriptionDiffers            // require_extra and the existing description differs
    | ExistsUnverified              // require_extra and the create lost a race
    | ZoneNameInvalid               // the zone create was refused with code 'invalid'
    | ZoneNameReserved              // the zone create was refused as a reserved name
    | NonEmptyZone(domain: string)  // the zone holds more than its NS and SOA records
    | Unexpected                    // the generic failure for an exception caught in `main`
    | Uncaught                      // an exception that escapes `main` altogether

  /** How a reconciler function is left: it returns `changed`, it calls `fail_json`
      (which ends the run: the SystemExit it raises is not an `Exception`), or it lets a
      provider exception propagate to its caller. */
  datatype Flow = Returned(changed: bool) | Exited(reason: Reason, changed: bool) | Raised(error: ProviderError)

  /** What the run reports. */
  datatype Outcome = Ok(changed: bool) | Fail(reason: Reason, changed: bool)

  /** The `except Exception` around the dispatch in `main`, as intended: an escaping
      exception becomes the generic failure with changed=False. */
  function Catch(flow: Flow): (o: Outcome)
    ensures o.Ok? <==> flow.Returned?
    ensures flow.Raised? ==> o == Fail(Unexpected, false)
    ensures !flow.Raised? ==> o.changed == flow.changed
    ensures flow.Exited? ==> o.reason == flow.reason
  {
    match flow
    case Returned(c) => Ok(c)
    case Exited(r, c) => Fail(r, c)
    case Raised(_) => Fail(Unexpected, false)
  }

  /** The same handler as the module files read alone: the message helper calls
      `pformat` on the name `pprint`, which each file binds to the function
      `pprint.pprint`, so building the message raises AttributeError inside the handler
      and that escapes `main`. The wildcard imports at the end of each file run before
      `main` and may rebind `pprint` to the module, in which case `Catch` is the handler
      as it runs. */
  function CatchAsWritten(flow: Flow): (o: Outcome)
    ensures flow.Raised? ==> o == Fail(Uncaught, false)
    ensures !flow.Raised? ==> o == Catch(flow)
  {
    if flow.Raised? then Fail(Uncaught, false) else Catch(flow)
  }

  /** Read alone, every exception that reaches the handler escapes it instead of
      becoming the generic failure; the runs that end otherwise are unaffected. */
  lemma HandlerRaises(flow: Flow)
    ensures CatchAsWritten(flow) == Catch(flow) <==> !flow.Raised?
  {
  }

  datatype DesiredState = Present | Absent

  /** Appends the trailing dot Google Cloud DNS wants on every DNS name, when missing. */
  function Normalize(name: string): (r: string)
    requires |name| > 0
    ensures |r| > 0 && r[|r| - 1] == '.'
    ensures |name| <= |r| <= |name| + 1 && r[..|name|] == name
    ensures |r| == |name| <==> name[|name| - 1] == '.'
  {
    if name[|name| - 1] != '.' then name + "." else name
  }

  lemma NormalizeIdempotent(name: string)
    requires |name| > 0
    ensures Normalize(Normalize(name)) == Normalize(name)
  {
  }

  /** Two names reach the same normalised form exactly when they are equal or one is
      the other with the missing trailing dot added ("foo.com" and "foo.com."). */
  lemma NormalizeSameIdentity(a: string, b: string)
    requires |a| > 0 && |b| > 0
    ensures Normalize(a) == Normalize(b) <==>
      (a == b || (a == b + "." && b[|b| - 1] != '.') || (b == a + "." && a[|a| - 1] != '.'))
  {
    if Normalize(a) == Normalize(b) {
      var n := Normalize(a);
      if a[|a| - 1] == '.' && b[|b| - 1] != '.' {
        assert a == n && n == b + ".";
      } else if a[|a| - 1] != '.' && b[|b| - 1] == '.' {
        assert b == n && n == a + ".";
      } else if a[|a| - 1] != '.' {
        assert a + "." == b + ".";
        assert a == (a + ".")[..|a|];
        assert b == (b + ".")[..|b|];
      }
    }
  }

  /** The identity of a record within its zone: "<type>:<name>". */
  function RecordKey(rtype: string, name: string): (k: string)
    ensures |k| == |rtype| + 1 + |name|
    ensures k[..|rtype|] == rtype && k[|rtype|] == ':' && k[|rtype| + 1..] == name
  {
    rtype + ":" + name
  }

  /** Record types carry no ':', so the key determines type and name. */
  lemma RecordKeyInjective(t1: string, n1: string, t2: string, n2: string)
    requires ':' !in t1 && ':' !in t2
    requires RecordKey(t1, n1) == RecordKey(t2, n2)
    ensures t1 == t2 && n1 == n2
  {
  }

  /** No two zones share a domain: the first match `_get_zone` finds is the only one. */
  ghost predicate UniqueDomains(zs: seq<Zone>)
  {
    forall i, j :: 0 <= i < j < |zs| ==> zs[i].domain != zs[j].domain
  }

  /** The zones of `zs` other than those for `domain`. */
  function Without(zs: seq<Zone>, domain: string): (r: seq<Zone>)
    ensures forall z :: z in r <==> z in zs && z.domain != domain
    ensures |r| <= |zs|
    ensures UniqueDomains(zs) ==> UniqueDomains(r)
  {
    if zs == [] then []
    else
      var rest := Without(zs[1..], domain);
      assert UniqueDomains(zs) ==> UniqueDomains(zs[1..]) by {
        if UniqueDomains(zs) {
          forall i, j | 0 <= i < j < |zs[1..]| ensures zs[1..][i].domain != zs[1..][j].domain {
            assert zs[1..][i] == zs[i + 1] && zs[1..][j] == zs[j + 1];
          }
        }
      }
      if zs[0].domain == domain then rest
      else
        assert UniqueDomains(zs) ==> forall z :: z in rest ==> z.domain != zs[0].domain by {
          if UniqueDomains(zs) {
            forall z | z in rest ensures z.domain != zs[0].domain {
              assert z in zs[1..];
              var k :| 0 <= k < |zs[1..]| && zs[1..][k] == z;
              assert zs[k + 1] == z;
            }
          }
        }
        assert forall i :: 0 < i < |[zs[0]] + rest| ==> ([zs[0]] + rest)[i] == rest[i - 1];
        [zs[0]] + rest
  }

  /** The position of the first zone whose domain equals `name`, or |zones| when none does. */
  function MatchIndex(zones: seq<Zone>, name: string): (i: nat)
    ensures i <= |zones|
    ensures forall j :: 0 <= j < i ==> zones[j].domain != name
    ensures i < |zones| ==> zones[i].domain == name
  {
    if zones == [] then 0
    else if zones[0].domain == name then 0
    else 1 + MatchIndex(zones[1..], name)
  }

  /** The first zone whose domain equals `name` exactly, or None. */
  function FirstZone(zones: seq<Zone>, name: string): (r: Option<Zone>)
    ensures r.None? <==> forall z :: z in zones ==> z.domain != name
    ensures r.Some? ==> r.value.domain == name && r.value == zones[MatchIndex(zones, name)]
  {
    var i := MatchIndex(zones, name);
    if i < |zones| then Some(zones[i]) else None
  }

  /** Appending a zone for a domain no listed zone has makes it the one found. */
  lemma FirstZoneAppend(zones: seq<Zone>, z: Zone)
    requires FirstZone(zones, z.domain).None?
    ensures FirstZone(zones + [z], z.domain) == Some(z)
  {
    var zs := zones + [z];
    assert forall i :: 0 <= i < |zones| ==> zs[i] == zones[i];
    assert zs[|zones|] == z;
  }

  /** The remote provider: its zones, each zone's records (the NS and SOA records
      included) keyed by identity, and the log of mutating calls issued to it. */
  class Provider {
    var zones: seq<Zone>
    var records: map<string, map<string, RecordData>>
    var calls: seq<Call>
    /** What the provider puts into the NS and SOA records of a zone it creates. */
    const nsData: RecordData
    const soaData: RecordData

    ghost predicate Valid()
      reads this
    {
      UniqueDomains(zones) && forall z :: z in zones ==> z.domain in records
    }

    constructor (zones: seq<Zone>, records: map<string, map<string, RecordData>>, nsData: RecordData, soaData: RecordData)
      requires UniqueDomains(zones) && forall z :: z in zones ==> z.domain in records
      ensures Valid() && calls == []
      ensures this.zones == zones && this.records == records
      ensures this.nsData == nsData && this.soaData == soaData
    {
      this.zones := zones;
      this.records := records;
      this.calls := [];
      this.nsData := nsData;
      this.soaData := soaData;
    }

    /** The records of the zone for `domain`. */
    function RecordsOf(domain: string): map<string, RecordData>
      reads this
    {
      if domain in records then records[domain] else map[]
    }

    /** The record stored under `key` in the zone for `domain`, if any. */
    function Lookup(domain: string, key: string): Option<RecordData>
      reads this
    {
      if key in RecordsOf(domain) then Some(RecordsOf(domain)[key]) else None
    }

    /** `len(zone.list_records())`. */
    function RecordCount(domain: string): nat
      reads this
    {
      |RecordsOf(domain)|
    }

    /** The two system-managed records a new zone holds. */
    function SystemRecords(domain: string): (m: map<string, RecordData>)
      ensures |m| == 2
      ensures RecordKey("NS", domain) in m && RecordKey("SOA", domain) in m
    {
      map[RecordKey("NS", domain) := nsData, RecordKey("SOA", domain) := soaData]
    }

    /** `gcdns.create_record(name, zone, type, data)`. */
    method CreateRecord(domain: string, rtype: string, name: string, data: RecordData, resp: Response)
      returns (err: Option<ProviderError>)
      requires Valid()
      modifies this
      ensures Valid() && zones == old(zones)
      ensures calls == old(calls) + [CreateRecordCall(domain, RecordKey(rtype, name), data)]
      ensures err == ErrorOf(resp)
      ensures records == if resp.Done? then old(records)[domain := old(RecordsOf(domain))[RecordKey(rtype, name) := data]]
                         else old(records)
      ensures domain in old(records) ==> records.Keys == old(records.Keys)
      ensures Lookup(domain, RecordKey(rtype, name)) == if resp.Done? then Some(data) else old(Lookup(domain, RecordKey(rtype, name)))
      ensures forall d, k :: d != domain || k != RecordKey(rtype, name) ==> Lookup(d, k) == old(Lookup(d, k))
    {
      calls := calls + [CreateRecordCall(domain, RecordKey(rtype, name), data)];
      err := ErrorOf(resp);
      if resp.Done? {
        records := records[domain := RecordsOf(domain)[RecordKey(rtype, name) := data]];
      }
    }

    /** `gcdns.delete_record(record)` for the record stored under `key`. */
    method DeleteRecord(domain: string, key: string, resp: Response) returns (err: Option<ProviderError>)
      requires Valid()
      modifies this
      ensures Valid() && zones == old(zones)
      ensures calls == old(calls) + [DeleteRecordCall(domain, key)]
      ensures err == ErrorOf(resp)
      ensures records == if resp.Done? then old(records)[domain := old(RecordsOf(domain)) - {key}] else old(records)
      ensures domain in old(records) ==> records.Keys == old(records.Keys)
      ensures Lookup(domain, key) == if resp.Done? then None else old(Lookup(domain, key))
      ensures forall d, k :: d != domain || k != key ==> Lookup(d, k) == old(Lookup(d, k))
    {
      calls := calls + [DeleteRecordCall(domain, key)];
      err := ErrorOf(resp);
      if resp.Done? {
        records := records[domain := RecordsOf(domain) - {key}];
      }
    }

    /** `gcdns.create_zone(domain=domain, extra={description})`. A provider that answers
        Done holds no zone for that domain yet. */
    method CreateZone(domain: string, description: string, resp: Response) returns (err: Option<ProviderError>)
      requires Valid()
      requires resp.Done? ==> FirstZone(zones, domain).None?
      modifies this
      ensures Valid()
      ensures calls == old(calls) + [CreateZoneCall(domain, description)]
      ensures err == ErrorOf(resp)
      ensures zones == if resp.Done? then old(zones) + [Zone(domain, description)] else old(zones)
      ensures records == if resp.Done? then old(records)[domain := SystemRecords(domain)] else old(records)
    {
      calls := calls + [CreateZoneCall(domain, description)];
      err := ErrorOf(resp);
      if resp.Done? {
        var zs := zones + [Zone(domain, description)];
        assert forall i :: 0 <= i < |zones| ==> zs[i] == zones[i] && zones[i] in zones;
        zones := zs;
        records := records[domain := SystemRecords(domain)];
      }
    }

    /** `gcdns.delete_zone(zone)` for the zone of `domain`. */
    method DeleteZone(domain: string, resp: Response) returns (err: Option<ProviderError>)
      requires Valid()
      modifies this
      ensures Valid()
      ensures calls == old(calls) + [DeleteZoneCall(domain)]
      ensures err == ErrorOf(resp)
      ensures zones == if resp.Done? then Without(old(zones), domain) else old(zones)
      ensures records == if resp.Done? then old(records) - {domain} else old(records)
    {
      calls := calls + [DeleteZoneCall(domain)];
      err := ErrorOf(resp);
      if resp.Done? {
        zones := Without(zones, domain);
        records := records - {domain};
      }
    }
  }

  /** `_get_zone`: scans the zone listing (`iterate_zones`) for the first zone whose
      domain equals `name`. Both modules carry this same loop. */
  method GetZone(p: Provider, name: string) returns (found: Option<Zone>)
    ensures found == FirstZone(p.zones, name)
    ensures found.Some? ==> found.value in p.zones && found.value.domain == name
    ensures found.None? <==> forall z :: z in p.zones ==> z.domain != name
  {
    var available := p.zones;
    found := None;
    var i := 0;
    while i < |available|
      invariant 0 <= i <= |available|
      invariant found.None?
      invariant forall j :: 0 <= j < i ==> available[j].domain != name
    {
      if available[i].domain == name {
        found := Some(available[i]);
        break;
      }
      i := i + 1;
    }
    ghost var m := MatchIndex(available, name);
    if found.Some? {
      assert available[i].domain == name && found == Some(available[i]);
    }
  }
}
