/** Where the redactor and the processor's check agree, exactly. */
module RedactionAgreement {
  import opened Wrappers
  import opened Json
  import opened Redaction

  /** No object the check can reach, at any depth, has a field outside the policy. */
  predicate CleanFields(p: Policy, fields: seq<Field>)
    decreases fields
  {
    forall i :: 0 <= i < |fields| ==> Keeps(p, fields[i].key) && CleanValue(p, fields[i].value)
  }

  predicate CleanValue(p: Policy, v: Value)
    decreases v
  {
    match v
    case Obj(fields) => CleanFields(p, fields)
    case Arr(items) => forall i :: 0 <= i < |items| ==> CleanItem(p, items[i])
    case _ => true
  }

  predicate CleanItem(p: Policy, item: Value)
    decreases item, 0
  {
    item.Obj? ==> CleanFields(p, item.fields)
  }

  lemma CleanCons(p: Policy, f: Field, rest: seq<Field>)
    ensures CleanFields(p, [f] + rest) <==>
            Keeps(p, f.key) && CleanValue(p, f.value) && CleanFields(p, rest)
  {
    var all := [f] + rest;
    assert all[0] == f;
    assert forall i :: 0 <= i < |rest| ==> all[i + 1] == rest[i];
    if CleanFields(p, all) {
      forall i | 0 <= i < |rest|
        ensures Keeps(p, rest[i].key) && CleanValue(p, rest[i].value)
      {
        assert all[i + 1] == rest[i];
      }
    }
  }

  /** The check passes exactly the clean payloads, whatever path it reports under. */
  lemma {:induction false} PassesIffClean(p: Policy, fields: seq<Field>, prefix: string)
    ensures Violations(p, fields, prefix) == [] <==> CleanFields(p, fields)
    decreases fields, 1
  {
    if fields != [] {
      var f, rest := fields[0], fields[1..];
      PassesIffClean(p, rest, prefix);
      ValuePassesIffClean(p, f.value, Joined(prefix, f.key));
      assert fields == [f] + rest;
      CleanCons(p, f, rest);
    }
  }

  lemma {:induction false} ValuePassesIffClean(p: Policy, v: Value, path: string)
    ensures ValueViolations(p, v, path) == [] <==> CleanValue(p, v)
    decreases v, 0
  {
    match v {
      case Obj(fields) => PassesIffClean(p, fields, path);
      case Arr(items) => ItemsPassIffClean(p, items, path);
      case _ =>
    }
  }

  lemma {:induction false} ItemsPassIffClean(p: Policy, items: seq<Value>, path: string)
    ensures ItemViolations(p, items, path) == [] <==>
            forall i :: 0 <= i < |items| ==> CleanItem(p, items[i])
    decreases items, 0
  {
    if items != [] {
      ItemsPassIffClean(p, items[1..], path);
      ItemPassesIffClean(p, items[0], path);
      assert forall i :: 1 <= i < |items| ==> items[i] == items[1..][i - 1];
      assert forall i :: 0 <= i < |items| - 1 ==> items[1..][i] == items[i + 1];
    }
  }

  lemma {:induction false} ItemPassesIffClean(p: Policy, item: Value, path: string)
    ensures ItemViolation(p, item, path) == [] <==> CleanItem(p, item)
    decreases item, 0
  {
    if item.Obj? { PassesIffClean(p, item.fields, path); }
  }

  // ----- Redacting twice is redacting once -----

  lemma {:induction false} KeepingTwice(p: Policy, fields: seq<Field>, prefix: string)
    ensures KeptFields(p, KeptFields(p, fields)) == KeptFields(p, fields)
    ensures DroppedNames(p, KeptFields(p, fields), prefix) == []
  {
    if fields != [] {
      KeepingTwice(p, fields[1..], prefix);
      if Keeps(p, fields[0].key) {
        assert KeptFields(p, fields)[1..] == KeptFields(p, fields[1..]);
      } else {
        assert KeptFields(p, fields) == KeptFields(p, fields[1..]);
      }
    }
  }

  lemma {:induction false} FilteringItemsTwice(p: Policy, items: seq<Value>, prefix: string)
    ensures FilteredItems(p, FilteredItems(p, items)) == FilteredItems(p, items)
    ensures DroppedInItems(p, FilteredItems(p, items), prefix) == []
  {
    if items != [] {
      FilteringItemsTwice(p, items[1..], prefix);
      KeepingTwice(p, Entries(items[0]), prefix);
      assert FilteredItems(p, items)[1..] == FilteredItems(p, items[1..]);
    }
  }

  lemma FilteringTwice(p: Policy, v: Value, prefix: string)
    ensures FilteredValue(p, FilteredValue(p, v)) == FilteredValue(p, v)
    ensures DroppedInValue(p, FilteredValue(p, v), prefix) == []
  {
    match v {
      case Arr(items) => FilteringItemsTwice(p, items, prefix);
      case Obj(fields) => KeepingTwice(p, fields, prefix);
      case _ =>
    }
  }

  /** Redaction is idempotent: a second pass changes nothing and finds nothing to drop. */
  lemma {:induction false} RedactionIdempotent(p: Policy, fields: seq<Field>)
    ensures RedactedFields(p, RedactedFields(p, fields)) == RedactedFields(p, fields)
    ensures RedactionLog(p, RedactedFields(p, fields)) == []
    ensures KeptNames(p, RedactedFields(p, fields)) == KeptNames(p, fields)
  {
    if fields != [] {
      var f := fields[0];
      RedactionIdempotent(p, fields[1..]);
      if Keeps(p, f.key) {
        FilteringTwice(p, f.value, f.key + ".");
        assert RedactedFields(p, fields)[1..] == RedactedFields(p, fields[1..]);
      } else {
        assert RedactedFields(p, fields) == RedactedFields(p, fields[1..]);
      }
    }
  }

  // ----- When redacted output passes the check -----

  /** Every kept field of this object has a clean value. */
  predicate KeptValuesClean(p: Policy, fields: seq<Field>) {
    forall i :: 0 <= i < |fields| && Keeps(p, fields[i].key) ==> CleanValue(p, fields[i].value)
  }

  /** Two levels down, where the redactor no longer looks, nothing is left to complain about. */
  predicate SubValuesClean(p: Policy, v: Value) {
    match v
    case Obj(fields) => KeptValuesClean(p, fields)
    case Arr(items) => forall i :: 0 <= i < |items| ==> ItemSubValuesClean(p, items[i])
    case _ => true
  }

  predicate ItemSubValuesClean(p: Policy, item: Value) {
    item.Obj? || item.Arr? ==> KeptValuesClean(p, Entries(item))
  }

  predicate KeptSubValuesClean(p: Policy, fields: seq<Field>) {
    forall i :: 0 <= i < |fields| && Keeps(p, fields[i].key) ==> SubValuesClean(p, fields[i].value)
  }

  lemma {:induction false} KeptFieldsCleanIff(p: Policy, fields: seq<Field>)
    ensures CleanFields(p, KeptFields(p, fields)) <==> KeptValuesClean(p, fields)
  {
    if fields != [] {
      var f, rest := fields[0], fields[1..];
      KeptFieldsCleanIff(p, rest);
      assert forall i :: 1 <= i < |fields| ==> fields[i] == rest[i - 1];
      assert forall i :: 0 <= i < |rest| ==> rest[i] == fields[i + 1];
      var kept, tail := KeptFields(p, fields), KeptFields(p, rest);
      if Keeps(p, f.key) {
        assert kept == [f] + tail;
        CleanCons(p, f, tail);
      } else {
        assert kept == tail;
      }
    }
  }

  lemma {:induction false} FilteredItemsAt(p: Policy, items: seq<Value>)
    ensures |FilteredItems(p, items)| == |items|
    ensures forall i :: 0 <= i < |items| ==> FilteredItems(p, items)[i] == FilteredItem(p, items[i])
  {
    if items != [] { FilteredItemsAt(p, items[1..]); }
  }

  lemma FilteredItemCleanIff(p: Policy, item: Value)
    ensures CleanItem(p, FilteredItem(p, item)) <==> ItemSubValuesClean(p, item)
  {
    KeptFieldsCleanIff(p, Entries(item));
  }

  lemma FilteredValueCleanIff(p: Policy, v: Value)
    ensures CleanValue(p, FilteredValue(p, v)) <==> SubValuesClean(p, v)
  {
    match v {
      case Obj(fields) => KeptFieldsCleanIff(p, fields);
      case Arr(items) =>
        FilteredItemsAt(p, items);
        forall i | 0 <= i < |items|
          ensures CleanItem(p, FilteredItems(p, items)[i]) <==> ItemSubValuesClean(p, items[i])
        {
          FilteredItemCleanIff(p, items[i]);
        }
      case _ =>
    }
  }

  lemma {:induction false} RedactedCleanIff(p: Policy, fields: seq<Field>)
    ensures CleanFields(p, RedactedFields(p, fields)) <==> KeptSubValuesClean(p, fields)
  {
    if fields != [] {
      var f, rest := fields[0], fields[1..];
      RedactedCleanIff(p, rest);
      FilteredValueCleanIff(p, f.value);
      assert forall i :: 1 <= i < |fields| ==> fields[i] == rest[i - 1];
      assert forall i :: 0 <= i < |rest| ==> rest[i] == fields[i + 1];
      var out, tail := RedactedFields(p, fields), RedactedFields(p, rest);
      if Keeps(p, f.key) {
        assert out == [Field(f.key, FilteredValue(p, f.value))] + tail;
        CleanCons(p, Field(f.key, FilteredValue(p, f.value)), tail);
      } else {
        assert out == tail;
      }
    }
  }

  /**
   Redacted output is not always accepted, since the redactor stops one level down. It is
   accepted exactly when everything below that level was already clean.
   */
  lemma RedactedPassesIff(p: Policy, fields: seq<Field>)
    ensures Violations(p, RedactedFields(p, fields), "") == [] <==> KeptSubValuesClean(p, fields)
  {
    PassesIffClean(p, RedactedFields(p, fields), "");
    RedactedCleanIff(p, fields);
  }

  predicate HoldsNoObject(v: Value) {
    !v.Obj? && (v.Arr? ==> forall i :: 0 <= i < |v.items| ==> !v.items[i].Obj?)
  }

  predicate FlatFields(p: Policy, fields: seq<Field>) {
    forall i :: 0 <= i < |fields| && Keeps(p, fields[i].key) ==> HoldsNoObject(fields[i].value)
  }

  predicate FlatItem(p: Policy, item: Value) {
    item.Obj? || item.Arr? ==> FlatFields(p, Entries(item))
  }

  /** Kept sub-values hold no further objects: what redaction.js:45-47 has in mind. */
  predicate Shallow(p: Policy, fields: seq<Field>) {
    forall i :: 0 <= i < |fields| && Keeps(p, fields[i].key) ==>
      match fields[i].value
      case Obj(sub) => FlatFields(p, sub)
      case Arr(items) => forall j :: 0 <= j < |items| ==> FlatItem(p, items[j])
      case _ => true
  }

  lemma FlatIsClean(p: Policy, fields: seq<Field>)
    requires FlatFields(p, fields)
    ensures KeptValuesClean(p, fields)
  {
  }

  /** Whatever a shallow payload held, its redacted form is accepted by the processor. */
  lemma ShallowRedactionIsAccepted(p: Policy, fields: seq<Field>)
    requires Shallow(p, fields)
    ensures Enforced(Some(p), Obj(RedactedFields(p, fields))).Success?
  {
    forall i | 0 <= i < |fields| && Keeps(p, fields[i].key)
      ensures SubValuesClean(p, fields[i].value)
    {
      match fields[i].value {
        case Obj(sub) => FlatIsClean(p, sub);
        case Arr(items) =>
          forall j | 0 <= j < |items|
            ensures ItemSubValuesClean(p, items[j])
          {
            assert FlatItem(p, items[j]);
            if items[j].Obj? || items[j].Arr? { FlatIsClean(p, Entries(items[j])); }
          }
        case _ =>
      }
    }
    RedactedPassesIff(p, fields);
  }

  /** A field that must not leave, inside a kept field of an array entry. */
  function Deep(items: string, kept: string, hidden: string): seq<Field> {
    [Field(items, Arr([Obj([Field(kept, Obj([Field(hidden, Str("000"))]))])]))]
  }

  /** Under any policy the redactor leaves such a field alone, and the processor refuses the payload. */
  lemma DeepIsRefused(p: Policy, items: string, kept: string, hidden: string)
    requires Keeps(p, items) && Keeps(p, kept) && !Keeps(p, hidden)
    ensures RedactionLog(p, Deep(items, kept, hidden)) == []
    ensures Enforced(Some(p), Obj(RedactedFields(p, Deep(items, kept, hidden)))).Failure?
  {
    var payload := Deep(items, kept, hidden);
    var innermost := Obj([Field(hidden, Str("000"))]);
    var inner := [Field(kept, innermost)];
    assert !Keeps(p, innermost.fields[0].key);
    assert !CleanFields(p, innermost.fields);
    assert inner[0] == Field(kept, innermost);
    assert !KeptValuesClean(p, inner);
    assert !ItemSubValuesClean(p, Obj(inner));
    assert payload[0].value.items[0] == Obj(inner);
    assert !SubValuesClean(p, payload[0].value);
    assert !KeptSubValuesClean(p, payload);
    RedactedPassesIff(p, payload);
    var prefix := items + ".";
    assert KeptFields(p, inner) == inner && DroppedNames(p, inner, prefix) == [];
    assert payload[1..] == [] && inner[1..] == [];
    var entries := [Obj(inner)];
    assert entries[1..] == [];
    assert DroppedInItems(p, entries, prefix) == DroppedNames(p, inner, prefix);
    assert RedactionLog(p, payload) == DroppedInItems(p, entries, prefix) + RedactionLog(p, []);
  }

  lemma NeverRedacted(key: string)
    requires key == "items" || key == "description"
    ensures forall f :: f in ALWAYS_REDACTED ==> Lower(f) != Lower(key)
  {
    forall f | f in ALWAYS_REDACTED && |f| == |key|
      ensures Lower(f) != Lower(key)
    {
      assert |Lower(f)| == |f|;
      assert Lower(f)[0] == LowerChar(f[0]) && Lower(f)[1] == LowerChar(f[1]);
      assert Lower(key)[0] == LowerChar(key[0]) && Lower(key)[1] == LowerChar(key[1]);
    }
    assert forall f :: f in ALWAYS_REDACTED ==> |Lower(f)| == |f|;
  }

  lemma ManifestPolicy() returns (p: Policy)
    ensures PolicyFor("EVIDENCE_MANIFEST") == Some(p)
    ensures Keeps(p, "items") && Keeps(p, "description") && !Keeps(p, "ssn")
  {
    p := PolicyFor("EVIDENCE_MANIFEST").value;
    NeverRedacted("items");
    NeverRedacted("description");
    assert ALWAYS_REDACTED[0] == "ssn";
    assert Lower("ssn") in p.always;
  }

  /** So an evidence manifest, under its own policy, can be redacted and yet refused. */
  lemma DeepRedactionCanBeRefused()
    ensures PolicyFor("EVIDENCE_MANIFEST").Some?
    ensures var p := PolicyFor("EVIDENCE_MANIFEST").value;
            && RedactionLog(p, Deep("items", "description", "ssn")) == []
            && Enforced(Some(p), Obj(RedactedFields(p, Deep("items", "description", "ssn")))).Failure?
  {
    var p := ManifestPolicy();
    DeepIsRefused(p, "items", "description", "ssn");
  }

  // ----- When a passing payload comes back unchanged -----

  /** No array stands directly inside an array that is a top-level value. */
  predicate NoArrayInArray(fields: seq<Field>) {
    forall i :: 0 <= i < |fields| && fields[i].value.Arr? ==> NoInnerArray(fields[i].value.items)
  }

  predicate NoInnerArray(items: seq<Value>) {
    forall j :: 0 <= j < |items| ==> !items[j].Arr?
  }

  lemma {:induction false} CleanIsKept(p: Policy, fields: seq<Field>, prefix: string)
    requires CleanFields(p, fields)
    ensures KeptFields(p, fields) == fields && DroppedNames(p, fields, prefix) == []
  {
    if fields != [] {
      assert fields == [fields[0]] + fields[1..];
      CleanCons(p, fields[0], fields[1..]);
      CleanIsKept(p, fields[1..], prefix);
    }
  }

  lemma {:induction false} CleanItemsKeptIff(p: Policy, items: seq<Value>, prefix: string)
    requires forall i :: 0 <= i < |items| ==> CleanItem(p, items[i])
    ensures FilteredItems(p, items) == items <==> NoInnerArray(items)
    ensures NoInnerArray(items) ==> DroppedInItems(p, items, prefix) == []
  {
    if items != [] {
      var head, rest := items[0], items[1..];
      assert CleanItem(p, head);
      assert forall i :: 0 <= i < |rest| ==> rest[i] == items[i + 1];
      CleanItemsKeptIff(p, rest, prefix);
      if head.Obj? { CleanIsKept(p, head.fields, prefix); }
      var out := FilteredItems(p, items);
      assert out[0] == FilteredItem(p, head) && out[1..] == FilteredItems(p, rest);
      assert out == items <==> out[0] == head && out[1..] == rest;
      assert FilteredItem(p, head) == head <==> !head.Arr?;
      assert NoInnerArray(items) <==> !head.Arr? && NoInnerArray(rest) by {
        assert items == [head] + rest;
      }
    }
  }

  /**
   A payload the processor accepts is returned unchanged by the redactor exactly when no array
   is nested directly in a top-level array; and then nothing is logged as redacted. (An inner
   array is turned into an object by the redactor and not looked at by the processor.)
   */
  lemma {:induction false} AcceptedIsUnchangedIff(p: Policy, fields: seq<Field>)
    requires Violations(p, fields, "") == []
    ensures RedactedFields(p, fields) == fields <==> NoArrayInArray(fields)
    ensures NoArrayInArray(fields) ==> RedactionLog(p, fields) == []
  {
    PassesIffClean(p, fields, "");
    CleanIsUnchangedIff(p, fields);
  }

  lemma {:induction false} CleanIsUnchangedIff(p: Policy, fields: seq<Field>)
    requires CleanFields(p, fields)
    ensures RedactedFields(p, fields) == fields <==> NoArrayInArray(fields)
    ensures NoArrayInArray(fields) ==> RedactionLog(p, fields) == []
  {
    if fields != [] {
      var f, rest := fields[0], fields[1..];
      assert fields == [f] + rest;
      CleanCons(p, f, rest);
      CleanIsUnchangedIff(p, rest);
      match f.value {
        case Obj(sub) => CleanIsKept(p, sub, f.key + ".");
        case Arr(items) => CleanItemsKeptIff(p, items, f.key + ".");
        case _ =>
      }
      var out := RedactedFields(p, fields);
      assert out[0] == Field(f.key, FilteredValue(p, f.value)) && out[1..] == RedactedFields(p, rest);
      assert out == fields <==> out[0] == f && out[1..] == rest;
      assert NoArrayInArray(fields) <==>
             (f.value.Arr? ==> NoInnerArray(f.value.items)) && NoArrayInArray(rest) by {
        assert fields == [f] + rest;
      }
    }
  }

  // ----- What never leaves -----

  predicate PersonalIdentifier(name: string) {
    || name == "ssn" || name == "socialSecurityNumber" || name == "dateOfBirth" || name == "dob"
    || name == "homeAddress" || name == "phoneNumber" || name == "email" || name == "emailAddress" || name == "driversLicenseNumber"
    || name == "licensePlate" || name == "biometricData" || name == "medicalRecordNumber"
    || name == "healthInsuranceNumber" || name == "ipAddress" || name == "geolocation" || name == "preciseLocation"
  }

  /** Under no policy does a personal identifier leave, in whatever letter case its name is written. */
  lemma IdentifiersNeverLeave(recordType: string, key: string, name: string)
    requires PolicyFor(recordType).Some? && PersonalIdentifier(name) && Lower(key) == Lower(name)
    ensures !Keeps(PolicyFor(recordType).value, key)
  {
    assert name in ALWAYS_REDACTED;
  }
}
