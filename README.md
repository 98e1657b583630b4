# Google Cloud DNS reconcilers, modelled in Dafny

Two Ansible modules keep Google Cloud DNS in a desired state.

- `gcdns_zone` makes a managed zone present or absent.
- `gcdns_record` makes one resource record present or absent. A record is identified inside its zone by its type and fully-qualified name.

Each run reads the provider's current state. It then issues at most the mutating calls needed, and reports `changed`. It either succeeds or ends with a classified failure. Dry runs (check mode) issue no mutating call.

The project models that core.

- `cloud_dns.dfy` (module `CloudDns`) holds what the two modules share:
  - name normalisation (the trailing dot);
  - the `<type>:<name>` record identity key;
  - the zone scan `_get_zone`, as an imperative loop over the listing;
  - the exception handler around `main`'s dispatch.

  It also holds the provider as a class, `Provider`. The class keeps the zones, every zone's records by identity key, and a log of the mutating calls issued. Its methods are the four mutating remote calls; what `iterate_zones`, `get_record` and `list_records` return is read from its fields or from the scripted answers. Each call takes a scripted answer: it succeeds, or it raises one of the provider's exceptions. A failed call changes nothing.
- `gcdns_record.dfy` (module `GcdnsRecord`) models `_get_record`, `create_record` (with its delete/create/rollback overwrite path), `remove_record` and the validation and dispatch part of `main`.
- `gcdns_zone.dfy` (module `GcdnsZone`) models `create_zone`, `remove_zone` (with the NS+SOA emptiness guard) and the dispatch part of `main`.
- `GcdnsRecordScenarios` and `GcdnsZoneScenarios` call the imperative models on concrete providers; their ensures are verified.

Each reconciler has two forms.

- A pure function (`CreateRun`, `RemoveRun`) gives the run as a value: how it ends, the calls it issues, and what it leaves on the provider.
- An imperative method does what the Python does, step by step, against the `Provider` object. It is proved to agree with the function. The one caveat is the handler around `main`'s dispatch: `RecordMain` and `ZoneMain` use it as intended (`Catch`). Read alone, the module files make that handler raise. The wildcard imports at their end may rebind the name it uses, in which case `Catch` is also the handler as it runs (see "## Findings").

The properties are stated about the functions. They cover:

- idempotence;
- dry runs agreeing with real runs;
- `changed` being reported exactly when the provider state changed;
- the three terminal states of an overwrite;
- the classification of every provider error.

A run ends in one of three ways, the `Flow`:

- it returns `changed`;
- it calls `fail_json`, which ends the run because the `SystemExit` it raises is not an `Exception`;
- it lets a provider exception propagate.

`Catch` is `main`'s handler as intended: it turns an escaping exception into the generic failure. Read alone, the files make the handler itself raise (`CatchAsWritten`). The wildcard import of `ansible.module_utils.gce` at the end of each file may rebind `pprint` to the module, and then `Catch` is the handler as it runs (see "## Findings").

## Model

| member | source | states |
|---|---|---|
| CloudDns.Normalize | cloud/google/gcdns_record.py:365-369 | the result ends in a dot, starts with the given name and is at most one character longer; it is the name itself exactly when the name already ends in a dot |
| CloudDns.NormalizeIdempotent | cloud/google/gcdns_record.py:204-206 | normalising a normalised name changes nothing: every name the modules normalise (each site normalises the raw parameter again, e.g. `create_record` here and `main` at 368-369) is a fixed point, so a name given with its trailing dot is used as given |
| CloudDns.NormalizeSameIdentity | cloud/google/gcdns_zone.py:308-310 | two names normalise alike exactly when they are equal or one is the other plus the missing trailing dot |
| CloudDns.RecordKey | cloud/google/gcdns_record.py:287-292 | the key is the type, a colon, then the name |
| CloudDns.RecordKeyInjective | cloud/google/gcdns_record.py:287-292 | for types without a colon, the key determines type and name |
| CloudDns.Without | cloud/google/gcdns_zone.py:228 | the listing after a zone deletion holds exactly the other zones, and stays free of duplicate domains |
| CloudDns.MatchIndex | cloud/google/gcdns_record.py:309-312 | the position of the first zone whose domain equals the name; no earlier zone matches |
| CloudDns.FirstZone | cloud/google/gcdns_record.py:299-314 | None exactly when no listed zone has the domain; otherwise the first listed zone with that exact domain |
| CloudDns.FirstZoneAppend | cloud/google/gcdns_zone.py:179-183 | once a zone for a domain no listed zone had is created, the scan finds that zone |
| CloudDns.GetZone | cloud/google/gcdns_zone.py:249-264 | the loop over `iterate_zones` with its early exit returns the first zone with the exact domain, or None when there is none (gcdns_record.py:299-314 is the same loop) |
| CloudDns.Catch | cloud/google/gcdns_zone.py:319-327 | a run that returns reports success with its `changed`; a `fail_json` keeps its reason and `changed`; an escaping exception becomes the generic failure with changed=False |
| CloudDns.CatchAsWritten | cloud/google/gcdns_record.py:316-319 | with the files read alone (`pprint` bound to a function at line 180), an exception reaching the handler escapes `main`, because building the message raises; the wildcard imports at lines 412-413 may rebind `pprint`, which would make this reading moot |
| CloudDns.HandlerRaises | cloud/google/gcdns_record.py:400-408 | with the files read alone, the handler and the intended one differ exactly on the runs that raise |
| CloudDns.Provider.constructor | cloud/google/gcdns_zone.py:256 | a provider holding the given zones and records, with no call issued yet |
| CloudDns.Provider.SystemRecords | cloud/google/gcdns_zone.py:218-223 | a new zone holds exactly two records, its NS and its SOA record |
| CloudDns.Provider.CreateRecord | cloud/google/gcdns_record.py:228 | the call is logged; on success exactly the record under the key becomes the given data; on an error nothing else changes |
| CloudDns.Provider.DeleteRecord | cloud/google/gcdns_record.py:281 | the call is logged; on success exactly the record under the key disappears; on an error nothing changes |
| CloudDns.Provider.CreateZone | cloud/google/gcdns_zone.py:181 | the call is logged; on success the zone is appended to the listing with its two system records; on an error nothing changes |
| CloudDns.Provider.DeleteZone | cloud/google/gcdns_zone.py:228 | the call is logged; on success the zone and its records are gone; on an error nothing changes |
| GcdnsRecord.GetRecord | cloud/google/gcdns_record.py:287-297 | a lookup answered by the provider finds exactly what is stored under the key; "record does not exist" is an absent record; any other error is passed on unchanged |
| GcdnsRecord.CreateRun | cloud/google/gcdns_record.py:194-260 | an identical record is left alone without a call; a differing one under overwrite protection fails with changed=False; a dry run issues no call; in a real run `changed` holds exactly when the stored record changed, and the run succeeds exactly when the desired record is in place |
| GcdnsRecord.RemoveRun | cloud/google/gcdns_record.py:262-283 | a missing record is a no-op; differing values under overwrite protection fail with changed=False; a dry run issues no call; in a real run `changed` holds exactly when the record was deleted |
| GcdnsRecord.ReplaceRecord | cloud/google/gcdns_record.py:238-258 | the delete, create and rollback calls, and the record they leave, are those of `CreateRun` on the overwrite path; no other record changes |
| GcdnsRecord.CreateRecord | cloud/google/gcdns_record.py:194-260 | the flow, the calls issued and the record left under the key are those of `CreateRun`; no other record and no zone changes |
| GcdnsRecord.RemoveRecord | cloud/google/gcdns_record.py:262-283 | the flow, the call issued and the record left under the key are those of `RemoveRun`; nothing else changes |
| GcdnsRecord.RecordMain | cloud/google/gcdns_record.py:365-408 | an unsupported type, a negative ttl (the two checks `Admitted` names), a missing zone and a record name the lookup rejects as invalid each fail with changed=False and no call; any other lookup error except "record does not exist" escapes `main`, since the lookup (lines 394-398) sits outside the handler: `Fail(Uncaught, false)`, no call; otherwise the outcome, calls and stored record are those of the run `Reconcile` dispatches to for the desired state (lines 400-406); `changed` holds exactly when the record under the identity key changed; a dry run changes nothing; an exception escaping the dispatched run is the generic failure of the handler as intended |
| GcdnsRecord.OverwriteTerminalStates | cloud/google/gcdns_record.py:238-258 | after the old record is deleted there are three endings: replaced (changed=True), restored (fail, changed=False, original back) and lost (fail, changed=True, no record) |
| GcdnsRecord.OverwriteDeleteFails | cloud/google/gcdns_record.py:242 | a failing delete on the overwrite path is the generic failure and leaves the original record |
| GcdnsRecord.CreateMissing | cloud/google/gcdns_record.py:224-236 | a missing record is created; code 'invalid' is the invalid-value failure, any other error the generic one, both with changed=False and no record |
| GcdnsRecord.CreateIdempotent | cloud/google/gcdns_record.py:209-217 | after a run of `create_record` that returns, a second run finds the record in place, issues no call and reports changed=False |
| GcdnsRecord.CreateCheckModeAgrees | cloud/google/gcdns_record.py:224 | a dry run of `create_record` reports what a real run whose calls succeed reports |
| GcdnsRecord.RemoveDeletes | cloud/google/gcdns_record.py:275-283 | a record that passes the protection check is deleted with changed=True |
| GcdnsRecord.RemoveCheckModeAgrees | cloud/google/gcdns_record.py:280 | a dry run of `remove_record` reports what a real run whose delete succeeds reports |
| GcdnsRecord.RemoveIdempotent | cloud/google/gcdns_record.py:270-271 | after a run of `remove_record` that returns, a second run issues no call and reports changed=False |
| GcdnsRecord.ReorderedValuesDiffer | cloud/google/gcdns_record.py:212 | two distinct values given in the other order count as a difference, which overwrite protection refuses |
| GcdnsRecordScenarios.PresentTwice | cloud/google/gcdns_record.py:365-408 | creating a record reports changed=True; asking again with dotted names reports changed=False; the record is stored |
| GcdnsRecordScenarios.Overwrite | cloud/google/gcdns_record.py:209-247 | a differing record is refused with overwrite off and replaced with overwrite on |
| GcdnsRecordScenarios.OverwriteRollback | cloud/google/gcdns_record.py:244-258 | a failed replacing create with a successful rollback keeps the original record (changed=False); with a failed rollback the record is lost (changed=True) |
| GcdnsZone.CreateRun | cloud/google/gcdns_zone.py:153-209 | an existing zone is never recreated; under require_extra a differing description fails; a dry run for a missing zone reports changed=True without a call; the zone is created exactly when it was missing, the run is real and the provider accepts; `changed` holds exactly then |
| GcdnsZone.RemoveRun | cloud/google/gcdns_zone.py:211-245 | a missing zone is a no-op; more than two records fail before any delete; the delete is issued exactly for a found zone with at most two records outside a dry run; `changed` holds exactly when the zone was deleted |
| GcdnsZone.CreateZone | cloud/google/gcdns_zone.py:153-209 | the flow, the calls and the new listing and records are those of `CreateRun` |
| GcdnsZone.RemoveZone | cloud/google/gcdns_zone.py:211-245 | the flow, the calls and the new listing and records are those of `RemoveRun`, given the zone's record count `Provider.RecordCount`, which stands for `len(zone.list_records())` (line 223) |
| GcdnsZone.ZoneMain | cloud/google/gcdns_zone.py:308-327 | the outcome, calls, listing and records are those of the run `Reconcile` dispatches to for the desired state (lines 319-325); `changed` holds exactly when the listing changed; a dry run changes nothing; a changing present run leaves the zone found with its two system records; a changing absent run leaves no zone for the domain; an escaping exception is the generic failure of the handler as intended |
| GcdnsZone.CreationErrors | cloud/google/gcdns_zone.py:185-209 | every creation error reports changed=False; a lost creation race is a no-op unless require_extra asks for verification; 'invalid' and reserved names have their own failures; anything else is the generic failure |
| GcdnsZone.DeleteRaces | cloud/google/gcdns_zone.py:232-245 | a zone deleted meanwhile is a no-op; one filled meanwhile is the non-empty failure; anything else the generic failure; all with changed=False |
| GcdnsZone.EmptinessGuard | cloud/google/gcdns_zone.py:218-230 | three records are refused without a delete; two are deleted with changed=True |
| GcdnsZone.CheckModeAgrees | cloud/google/gcdns_zone.py:180-183 | a dry run reports what a real run whose mutating call succeeds reports, and issues no call |
| GcdnsZone.CreateIdempotent | cloud/google/gcdns_zone.py:166-176 | after the zone is created, a second run against the new listing is a no-op without a call (the scan finding the zone is `FirstZoneAppend`) |
| GcdnsZone.RemoveIdempotent | cloud/google/gcdns_zone.py:214-216 | after the zone is deleted, the scan finds none and a second run is a no-op without a call |
| GcdnsZoneScenarios.RemoveGuard | cloud/google/gcdns_zone.py:218-230 | a zone holding one user record besides NS and SOA is refused and kept; one holding only NS and SOA is deleted |
| GcdnsZoneScenarios.CreateTwice | cloud/google/gcdns_zone.py:308-327 | creating a missing zone reports changed=True and asking again reports changed=False; two dry runs both report changed=True and issue no call |

## Left out

- Parsing of the module arguments (`AnsibleModule`, `BOOLEANS`, the string-typed booleans): the parameters arrive as typed values.
- The "unknown state" branches of both `main` functions: the desired state is a two-valued datatype, so they cannot be reached.
- `gce_connect`, credentials, the libcloud import check and `exit_json`'s echo of the parameters: they are I/O and set-up and decide nothing about the reconciliation.
- The contents of the provider's `RECORD_TYPE_MAP`: `RecordMain` takes the set of supported types as a parameter.
- The text of the failure messages. Each message is one alternative of `Reason`; the `vars(error)` dump of the generic failure is not modelled.
- Zone ids: zones are identified by domain, and the provider holds at most one zone per domain.
- Concurrency: other actors appear only as the scripted answers of the remote calls. A failed call leaves the modelled provider unchanged, so the changes a racing actor makes are not modelled.
- Failures of `iterate_zones`: the zone listing always succeeds in the model.
- RecordMain, ZoneMain: they use the handler around the dispatch as intended (`Catch`), so an escaping exception is the generic failure. Read alone, the files make it escape `main`; the wildcard imports at their end may rebind `pprint` so that it does not (see "## Findings").
- Empty zone or record names: the Python indexes `name[-1]` and would raise; the model requires non-empty names.
- RecordMain: it requires that a provider answering "record does not exist" holds no record under the key. This lets the final-state ensures speak of the provider's record.
- RemoveZone: the count of `list_records` is the provider's record count for the zone. Only the error path of the listing takes a scripted answer.

## Findings

| source | as written | input that shows it | evidently intended | confidence | as-written member | corrected member |
|---|---|---|---|---|---|---|
| cloud/google/gcdns_record.py:316-319 (also cloud/google/gcdns_zone.py:266-269) | the message helper calls `pformat` on `pprint`, but `pprint` is bound by `from pprint import pprint` to a function; read alone, inside `main`'s `except Exception` handler this raises AttributeError, which escapes `main` | any provider error that `create_record`, `remove_record`, `create_zone` or `remove_zone` lets through, e.g. `delete_record` raising during an overwrite | the generic "unexpected response" failure with changed=False | low, not executed; `from ansible.module_utils.gce import *` at line 413 (gcdns_zone.py:332) runs before `main`, and if that module does `import pprint` it rebinds the name, `pformat` works and there is no bug; that module is not part of this model | CloudDns.CatchAsWritten, CloudDns.HandlerRaises | CloudDns.Catch |
