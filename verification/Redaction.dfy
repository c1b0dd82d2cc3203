/**
 The disclosure rule, twice. ARMA strips a payload to the minimum-necessary fields before it
 sends (law-shield/arma/redaction.js); the processor refuses a payload that does not arrive
 stripped (law-shield/lawshield/durable/processor.js). The two were written apart: the redactor
 filters one level below the top, the processor looks at every depth.
 */
module Redaction {
  import opened Wrappers
  import opened Json
  import opened Sequences

  /** Field names that may leave, and lower-case names that never may. */
  datatype Policy = Policy(allowed: set<string>, always: set<string>)

  predicate Keeps(p: Policy, key: string) {
    Lower(key) !in p.always && key in p.allowed
  }

  const ALWAYS_REDACTED: seq<string> := [
    "ssn", "socialSecurityNumber", "dateOfBirth", "dob", "homeAddress", "phoneNumber", "email",
    "emailAddress", "driversLicenseNumber", "licensePlate", "biometricData",
    "medicalRecordNumber", "healthInsuranceNumber", "ipAddress", "geolocation",
    "preciseLocation", "notes", "officerNotes", "freeText", "rawTranscript"]

  function MinimumNecessary(recordType: string): Option<seq<string>> {
    match recordType
    case "CASE_REFERRAL" => Some([
      "caseNumber", "incidentId", "incidentDate", "incidentType", "summary", "legalNeeds",
      "requestingOrgId", "requestingUserId", "incidentLocation"])
    case "INCIDENT_METADATA" => Some([
      "incidentId", "incidentDate", "incidentType", "incidentLocation", "incidentTime",
      "reportingOrgId", "officerBadgeNumber", "narrativeSummary"])
    case "EVIDENCE_MANIFEST" => Some([
      "manifestId", "incidentId", "itemCount", "items", "collectionDate",
      "collectingOfficerBadgeNumber", "storageLocation", "itemId", "type", "description",
      "itemIndex"])
    case "EVIDENCE_PACKAGE_REFERENCE" => Some([
      "packageId", "incidentId", "manifestId", "sizeBytes", "hashAlgorithm", "contentHash",
      "availabilityWindow"])
    case "CHAIN_OF_CUSTODY_UPDATE" => Some([
      "manifestId", "incidentId", "itemIndex", "action", "actorRole", "actorBadgeNumber",
      "timestamp", "storageLocation"])
    case "TRANSFER_STATUS" => Some(["transferId", "status", "reason"])
    case "CASE_STATUS_UPDATE" => Some([
      "caseNumber", "incidentId", "status", "updatedAt", "updatedByRole"])
    case _ => None
  }

  function PolicyFor(recordType: string): Option<Policy> {
    match MinimumNecessary(recordType)
    case None => None
    case Some(fields) => Some(Policy(set f | f in fields, set f | f in ALWAYS_REDACTED :: Lower(f)))
  }

  // ----- What the redactor keeps -----

  function KeptFields(p: Policy, fields: seq<Field>): seq<Field> {
    if fields == [] then []
    else (if Keeps(p, fields[0].key) then [fields[0]] else []) + KeptFields(p, fields[1..])
  }

  function DroppedNames(p: Policy, fields: seq<Field>, prefix: string): seq<string> {
    if fields == [] then []
    else (if Keeps(p, fields[0].key) then [] else [prefix + fields[0].key])
         + DroppedNames(p, fields[1..], prefix)
  }

  /** An array entry: anything object-like, an inner array included, becomes a filtered object. */
  function FilteredItem(p: Policy, item: Value): Value {
    if item.Obj? || item.Arr? then Obj(KeptFields(p, Entries(item))) else item
  }

  function FilteredItems(p: Policy, items: seq<Value>): seq<Value> {
    if items == [] then [] else [FilteredItem(p, items[0])] + FilteredItems(p, items[1..])
  }

  function DroppedInItems(p: Policy, items: seq<Value>, prefix: string): seq<string> {
    if items == [] then []
    else (if items[0].Obj? || items[0].Arr? then DroppedNames(p, Entries(items[0]), prefix) else [])
         + DroppedInItems(p, items[1..], prefix)
  }

  function FilteredValue(p: Policy, v: Value): Value {
    match v
    case Arr(items) => Arr(FilteredItems(p, items))
    case Obj(fields) => Obj(KeptFields(p, fields))
    case _ => v
  }

  function DroppedInValue(p: Policy, v: Value, prefix: string): seq<string> {
    match v
    case Arr(items) => DroppedInItems(p, items, prefix)
    case Obj(fields) => DroppedNames(p, fields, prefix)
    case _ => []
  }

  function RedactedFields(p: Policy, fields: seq<Field>): seq<Field> {
    if fields == [] then []
    else (if Keeps(p, fields[0].key) then [Field(fields[0].key, FilteredValue(p, fields[0].value))] else [])
         + RedactedFields(p, fields[1..])
  }

  function RedactionLog(p: Policy, fields: seq<Field>): seq<string> {
    if fields == [] then []
    else (if Keeps(p, fields[0].key)
          then DroppedInValue(p, fields[0].value, fields[0].key + ".")
          else [fields[0].key])
         + RedactionLog(p, fields[1..])
  }

  function KeptNames(p: Policy, fields: seq<Field>): seq<string> {
    if fields == [] then []
    else (if Keeps(p, fields[0].key) then [fields[0].key] else []) + KeptNames(p, fields[1..])
  }

  datatype Redacted = Redacted(payload: seq<Field>, minimumNecessaryFields: seq<string>,
                               redactedFields: seq<string>)

  // Each of the seven recursive functions above, one more element at the end.

  lemma {:induction false} ExtendKeptFields(p: Policy, a: seq<Field>, f: Field)
    ensures KeptFields(p, a + [f]) == KeptFields(p, a) + (if Keeps(p, f.key) then [f] else [])
  {
    if a != [] { assert (a + [f])[1..] == a[1..] + [f]; ExtendKeptFields(p, a[1..], f); }
  }

  lemma {:induction false} ExtendDroppedNames(p: Policy, a: seq<Field>, f: Field, prefix: string)
    ensures DroppedNames(p, a + [f], prefix) ==
            DroppedNames(p, a, prefix) + (if Keeps(p, f.key) then [] else [prefix + f.key])
  {
    if a != [] { assert (a + [f])[1..] == a[1..] + [f]; ExtendDroppedNames(p, a[1..], f, prefix); }
  }

  lemma {:induction false} ExtendItems(p: Policy, a: seq<Value>, v: Value, prefix: string)
    ensures FilteredItems(p, a + [v]) == FilteredItems(p, a) + [FilteredItem(p, v)]
    ensures DroppedInItems(p, a + [v], prefix) == DroppedInItems(p, a, prefix)
              + (if v.Obj? || v.Arr? then DroppedNames(p, Entries(v), prefix) else [])
  {
    if a != [] { assert (a + [v])[1..] == a[1..] + [v]; ExtendItems(p, a[1..], v, prefix); }
  }

  lemma {:induction false} ExtendRedaction(p: Policy, a: seq<Field>, f: Field)
    ensures RedactedFields(p, a + [f]) == RedactedFields(p, a)
              + (if Keeps(p, f.key) then [Field(f.key, FilteredValue(p, f.value))] else [])
    ensures RedactionLog(p, a + [f]) == RedactionLog(p, a)
              + (if Keeps(p, f.key) then DroppedInValue(p, f.value, f.key + ".") else [f.key])
    ensures KeptNames(p, a + [f]) == KeptNames(p, a) + (if Keeps(p, f.key) then [f.key] else [])
  {
    if a != [] { assert (a + [f])[1..] == a[1..] + [f]; ExtendRedaction(p, a[1..], f); }
  }

  /** Filters one object, one level deep, adding the names it drops to the log so far. */
  method FilterObject(p: Policy, fields: seq<Field>, prefix: string, log: seq<string>)
    returns (kept: seq<Field>, log': seq<string>)
    ensures kept == KeptFields(p, fields)
    ensures log' == log + DroppedNames(p, fields, prefix)
  {
    kept, log' := [], log;
    for i := 0 to |fields|
      invariant kept == KeptFields(p, fields[..i])
      invariant log' == log + DroppedNames(p, fields[..i], prefix)
    {
      var key := fields[i].key;
      ExtendKeptFields(p, fields[..i], fields[i]);
      ExtendDroppedNames(p, fields[..i], fields[i], prefix);
      assert fields[..i + 1] == fields[..i] + [fields[i]];
      if Lower(key) in p.always {
        log' := log' + [prefix + key];
        continue;
      }
      if key !in p.allowed {
        log' := log' + [prefix + key];
        continue;
      }
      kept := kept + [fields[i]];
    }
    assert fields[..|fields|] == fields;
  }

  method FilterItems(p: Policy, items: seq<Value>, prefix: string, log: seq<string>)
    returns (filtered: seq<Value>, log': seq<string>)
    ensures filtered == FilteredItems(p, items)
    ensures log' == log + DroppedInItems(p, items, prefix)
  {
    filtered, log' := [], log;
    for i := 0 to |items|
      invariant filtered == FilteredItems(p, items[..i])
      invariant log' == log + DroppedInItems(p, items[..i], prefix)
    {
      var item := items[i];
      ExtendItems(p, items[..i], item, prefix);
      assert items[..i + 1] == items[..i] + [item];
      if !item.Obj? && !item.Arr? {
        filtered := filtered + [item];
      } else {
        Associates(log, DroppedInItems(p, items[..i], prefix), DroppedNames(p, Entries(item), prefix));
        var out;
        out, log' := FilterObject(p, Entries(item), prefix, log');
        filtered := filtered + [Obj(out)];
      }
    }
    assert items[..|items|] == items;
  }

  /**
   ARMA's redactor, under the policy its record type looks up: fails when there is none, and on
   anything but an object.
   */
  method RedactPayload(policy: Option<Policy>, input: Value) returns (r: Result<Redacted, string>)
    ensures policy.None? ==> r == Failure("REDACTION_POLICY_MISSING")
    ensures policy.Some? && !input.Obj? ==> r == Failure("REDACTION_INVALID_PAYLOAD")
    ensures policy.Some? && input.Obj? ==>
              r == Success(Redacted(RedactedFields(policy.value, input.fields),
                                    KeptNames(policy.value, input.fields),
                                    RedactionLog(policy.value, input.fields)))
  {
    if policy.None? { return Failure("REDACTION_POLICY_MISSING"); }
    if !input.Obj? { return Failure("REDACTION_INVALID_PAYLOAD"); }
    var p, fields := policy.value, input.fields;
    var payload: seq<Field>, minimum: seq<string>, log: seq<string> := [], [], [];
    for i := 0 to |fields|
      invariant payload == RedactedFields(p, fields[..i])
      invariant minimum == KeptNames(p, fields[..i])
      invariant log == RedactionLog(p, fields[..i])
    {
      var key, value := fields[i].key, fields[i].value;
      ExtendRedaction(p, fields[..i], fields[i]);
      assert fields[..i + 1] == fields[..i] + [fields[i]];
      if Lower(key) in p.always {
        log := log + [key];
        continue;
      }
      if key !in p.allowed {
        log := log + [key];
        continue;
      }
      match value {
        case Arr(items) =>
          var filtered;
          filtered, log := FilterItems(p, items, key + ".", log);
          payload := payload + [Field(key, Arr(filtered))];
        case Obj(inner) =>
          var out;
          out, log := FilterObject(p, inner, key + ".", log);
          payload := payload + [Field(key, Obj(out))];
        case _ =>
          payload := payload + [Field(key, value)];
      }
      minimum := minimum + [key];
    }
    assert fields[..|fields|] == fields;
    r := Success(Redacted(payload, minimum, log));
  }

  // ----- What the processor checks -----

  function Joined(prefix: string, key: string): string {
    if prefix == "" then key else prefix + "." + key
  }

  const ALWAYS_SUFFIX := " (always-redacted)"
  const UNLISTED_SUFFIX := " (not in minimum-necessary allow-list)"

  /** The complaints about the fields of one object, depth first, in order. */
  function Violations(p: Policy, fields: seq<Field>, prefix: string): seq<string>
    decreases fields
  {
    if fields == [] then []
    else FieldViolations(p, fields[0], prefix) + Violations(p, fields[1..], prefix)
  }

  function FieldViolations(p: Policy, f: Field, prefix: string): seq<string>
    decreases f
  {
    var path := Joined(prefix, f.key);
    if Lower(f.key) in p.always then [path + ALWAYS_SUFFIX]
    else if f.key !in p.allowed then [path + UNLISTED_SUFFIX]
    else ValueViolations(p, f.value, path)
  }

  function ValueViolations(p: Policy, v: Value, path: string): seq<string>
    decreases v
  {
    match v
    case Obj(fields) => Violations(p, fields, path)
    case Arr(items) => ItemViolations(p, items, path)
    case _ => []
  }

  function ItemViolations(p: Policy, items: seq<Value>, path: string): seq<string>
    decreases items
  {
    if items == [] then []
    else ItemViolation(p, items[0], path) + ItemViolations(p, items[1..], path)
  }

  /** Objects inside an array are looked at; arrays inside an array are not. */
  function ItemViolation(p: Policy, item: Value, path: string): seq<string>
    decreases item, 0
  {
    if item.Obj? then Violations(p, item.fields, path) else []
  }

  /** The paths the processor reports as disclosed. */
  function Disclosed(p: Policy, fields: seq<Field>, prefix: string): seq<string>
    decreases fields
  {
    if fields == [] then []
    else FieldDisclosed(p, fields[0], prefix) + Disclosed(p, fields[1..], prefix)
  }

  function FieldDisclosed(p: Policy, f: Field, prefix: string): seq<string>
    decreases f
  {
    if Keeps(p, f.key)
    then var path := Joined(prefix, f.key); [path] + DisclosedInValue(p, f.value, path)
    else []
  }

  function DisclosedInValue(p: Policy, v: Value, path: string): seq<string>
    decreases v
  {
    match v
    case Obj(fields) => Disclosed(p, fields, path)
    case Arr(items) => DisclosedInItems(p, items, path)
    case _ => []
  }

  function DisclosedInItems(p: Policy, items: seq<Value>, path: string): seq<string>
    decreases items
  {
    if items == [] then []
    else DisclosedInItem(p, items[0], path) + DisclosedInItems(p, items[1..], path)
  }

  function DisclosedInItem(p: Policy, item: Value, path: string): seq<string>
    decreases item, 0
  {
    if item.Obj? then Disclosed(p, item.fields, path) else []
  }

  datatype Refusal = Refusal(code: string, violationPaths: Option<seq<string>>)

  predicate NamesAlwaysRedacted(violations: seq<string>) {
    exists i :: 0 <= i < |violations| && Contains(violations[i], "always-redacted")
  }

  /** The processor's answer under the policy that the record type looks up. */
  function Enforced(policy: Option<Policy>, payload: Value): Result<seq<string>, Refusal> {
    match policy
    case None => Failure(Refusal("RECORD_TYPE_NOT_ALLOWED", None))
    case Some(p) =>
      if payload.Null? then Failure(Refusal("TYPE_ERROR", None))
      else
        var violations := Violations(p, Entries(payload), "");
        if violations == [] then Success(Disclosed(p, Entries(payload), ""))
        else Failure(Refusal(
                       if NamesAlwaysRedacted(violations) then "ALWAYS_REDACTED_FIELD_PRESENT" else "MINIMUM_NECESSARY_VIOLATION",
                       Some(violations)))
  }

  lemma {:induction false} ExtendViolations(p: Policy, a: seq<Field>, f: Field, prefix: string)
    ensures Violations(p, a + [f], prefix) == Violations(p, a, prefix) + FieldViolations(p, f, prefix)
    ensures Disclosed(p, a + [f], prefix) == Disclosed(p, a, prefix) + FieldDisclosed(p, f, prefix)
  {
    if a == [] {
      assert a + [f] == [f] && [f][1..] == [];
    } else {
      assert (a + [f])[1..] == a[1..] + [f];
      ExtendViolations(p, a[1..], f, prefix);
    }
  }

  lemma {:induction false} ExtendItemViolations(p: Policy, a: seq<Value>, v: Value, path: string)
    ensures ItemViolations(p, a + [v], path) == ItemViolations(p, a, path) + ItemViolation(p, v, path)
    ensures DisclosedInItems(p, a + [v], path) ==
            DisclosedInItems(p, a, path) + DisclosedInItem(p, v, path)
  {
    if a == [] {
      assert a + [v] == [v] && [v][1..] == [];
    } else {
      assert (a + [v])[1..] == a[1..] + [v];
      ExtendItemViolations(p, a[1..], v, path);
    }
  }

  /** The nested walk over one object; both result lists grow in place. */
  method CheckEntry(p: Policy, fields: seq<Field>, prefix: string, paths: seq<string>, bad: seq<string>)
    returns (paths': seq<string>, bad': seq<string>)
    ensures paths' == paths + Disclosed(p, fields, prefix)
    ensures bad' == bad + Violations(p, fields, prefix)
    decreases fields, 0
  {
    paths', bad' := paths, bad;
    for i := 0 to |fields|
      invariant paths' == paths + Disclosed(p, fields[..i], prefix)
      invariant bad' == bad + Violations(p, fields[..i], prefix)
    {
      ExtendViolations(p, fields[..i], fields[i], prefix);
      assert fields[..i + 1] == fields[..i] + [fields[i]];
      paths', bad' := CheckField(p, fields[i], prefix, paths', bad');
    }
    assert fields[..|fields|] == fields;
  }

  method CheckField(p: Policy, f: Field, prefix: string, paths: seq<string>, bad: seq<string>)
    returns (paths': seq<string>, bad': seq<string>)
    ensures paths' == paths + FieldDisclosed(p, f, prefix)
    ensures bad' == bad + FieldViolations(p, f, prefix)
    decreases f, 0
  {
    var path := Joined(prefix, f.key);
    if Lower(f.key) in p.always {
      return paths, bad + [path + ALWAYS_SUFFIX];
    }
    if f.key !in p.allowed {
      return paths, bad + [path + UNLISTED_SUFFIX];
    }
    paths', bad' := paths + [path], bad;
    if f.value.Obj? {
      paths', bad' := CheckEntry(p, f.value.fields, path, paths', bad');
    } else if f.value.Arr? {
      paths', bad' := CheckItems(p, f.value.items, path, paths', bad');
    }
  }

  method CheckItems(p: Policy, items: seq<Value>, path: string, paths: seq<string>, bad: seq<string>)
    returns (paths': seq<string>, bad': seq<string>)
    ensures paths' == paths + DisclosedInItems(p, items, path)
    ensures bad' == bad + ItemViolations(p, items, path)
    decreases items, 0
  {
    paths', bad' := paths, bad;
    for i := 0 to |items|
      invariant paths' == paths + DisclosedInItems(p, items[..i], path)
      invariant bad' == bad + ItemViolations(p, items[..i], path)
    {
      ExtendItemViolations(p, items[..i], items[i], path);
      assert items[..i + 1] == items[..i] + [items[i]];
      paths', bad' := CheckItem(p, items[i], path, paths', bad');
    }
    assert items[..|items|] == items;
  }

  method CheckItem(p: Policy, item: Value, path: string, paths: seq<string>, bad: seq<string>)
    returns (paths': seq<string>, bad': seq<string>)
    ensures paths' == paths + DisclosedInItem(p, item, path)
    ensures bad' == bad + ItemViolation(p, item, path)
    decreases item, 0
  {
    paths', bad' := paths, bad;
    if item.Obj? {
      paths', bad' := CheckEntry(p, item.fields, path, paths', bad');
    }
  }

  method EnforceDisclosurePolicy(policy: Option<Policy>, payload: Value)
    returns (r: Result<seq<string>, Refusal>)
    ensures r == Enforced(policy, payload)
  {
    if policy.None? { return Failure(Refusal("RECORD_TYPE_NOT_ALLOWED", None)); }
    if payload.Null? { return Failure(Refusal("TYPE_ERROR", None)); }
    var paths, bad := CheckEntry(policy.value, Entries(payload), "", [], []);
    assert bad == Violations(policy.value, Entries(payload), "");
    assert paths == Disclosed(policy.value, Entries(payload), "");
    if |bad| > 0 {
      var found := false;
      for i := 0 to |bad|
        invariant found <==> NamesAlwaysRedacted(bad[..i])
      {
        assert bad[..i + 1][i] == bad[i];
        assert forall j :: 0 <= j < i ==> bad[..i + 1][j] == bad[..i][j];
        if Contains(bad[i], "always-redacted") { found := true; }
      }
      assert bad[..|bad|] == bad;
      return Failure(Refusal(if found then "ALWAYS_REDACTED_FIELD_PRESENT"
                             else "MINIMUM_NECESSARY_VIOLATION", Some(bad)));
    }
    r := Success(paths);
  }
}
