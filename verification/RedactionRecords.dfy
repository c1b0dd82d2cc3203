/**
 That the redactor loses no field silently: what it keeps and what it logs are, together, exactly what
 it was given to look at.
 */
module RedactionRecords {
  import opened Json
  import opened Redaction

  /** The fields one level below a value: those of an object, or of the object-like entries of an array. */
  function FieldsBelow(v: Value): seq<Field> {
    match v
    case Obj(fields) => fields
    case Arr(items) => FieldsAmong(items)
    case _ => []
  }

  function FieldsAmong(items: seq<Value>): seq<Field> {
    if items == [] then []
    else (if items[0].Obj? || items[0].Arr? then Entries(items[0]) else []) + FieldsAmong(items[1..])
  }

  // ----- What is kept -----

  lemma {:induction false} KeptIff(p: Policy, fields: seq<Field>, f: Field)
    ensures f in KeptFields(p, fields) <==> f in fields && Keeps(p, f.key)
  {
    if fields != [] {
      KeptIff(p, fields[1..], f);
      assert fields == [fields[0]] + fields[1..];
    }
  }

  lemma {:induction false} KeptAmongIff(p: Policy, items: seq<Value>, f: Field)
    ensures f in FieldsAmong(FilteredItems(p, items)) <==> f in FieldsAmong(items) && Keeps(p, f.key)
  {
    if items != [] {
      KeptAmongIff(p, items[1..], f);
      KeptIff(p, Entries(items[0]), f);
      assert FilteredItems(p, items)[1..] == FilteredItems(p, items[1..]);
    }
  }

  lemma KeptBelowIff(p: Policy, v: Value, f: Field)
    ensures f in FieldsBelow(FilteredValue(p, v)) <==> f in FieldsBelow(v) && Keeps(p, f.key)
  {
    match v {
      case Obj(fields) => KeptIff(p, fields, f);
      case Arr(items) => KeptAmongIff(p, items, f);
      case _ =>
    }
  }

  /** This field of the payload stayed, with this field below it. */
  predicate Holds(payload: seq<Field>, key: string, below: Field) {
    exists i :: 0 <= i < |payload| && payload[i].key == key && below in FieldsBelow(payload[i].value)
  }

  lemma HoldsEither(a: seq<Field>, b: seq<Field>, key: string, below: Field)
    ensures Holds(a + b, key, below) <==> Holds(a, key, below) || Holds(b, key, below)
  {
    if Holds(a, key, below) {
      var i :| 0 <= i < |a| && a[i].key == key && below in FieldsBelow(a[i].value);
      assert (a + b)[i] == a[i];
    }
    if Holds(b, key, below) {
      var i :| 0 <= i < |b| && b[i].key == key && below in FieldsBelow(b[i].value);
      assert (a + b)[|a| + i] == b[i];
    }
  }

  lemma OneHolds(f: Field, key: string, below: Field)
    ensures Holds([f], key, below) <==> f.key == key && below in FieldsBelow(f.value)
  {
    assert [f][0] == f;
  }

  /** A field below the top level leaves exactly when both names may, and then unchanged. */
  lemma {:induction false} LeavesIff(p: Policy, fields: seq<Field>, key: string, below: Field)
    ensures Holds(RedactedFields(p, fields), key, below)
            <==> Holds(fields, key, below) && Keeps(p, key) && Keeps(p, below.key)
  {
    if fields != [] {
      var f, rest := fields[0], fields[1..];
      LeavesIff(p, rest, key, below);
      assert fields == [f] + rest;
      HoldsEither([f], rest, key, below);
      OneHolds(f, key, below);
      KeptBelowIff(p, f.value, below);
      var kept := if Keeps(p, f.key) then [Field(f.key, FilteredValue(p, f.value))] else [];
      HoldsEither(kept, RedactedFields(p, rest), key, below);
      OneHolds(Field(f.key, FilteredValue(p, f.value)), key, below);
    }
  }

  // ----- What is logged -----

  predicate DropsOne(p: Policy, fields: seq<Field>, name: string, prefix: string) {
    exists i :: 0 <= i < |fields| && !Keeps(p, fields[i].key) && name == prefix + fields[i].key
  }

  lemma DropsEither(p: Policy, a: seq<Field>, b: seq<Field>, name: string, prefix: string)
    ensures DropsOne(p, a + b, name, prefix) <==> DropsOne(p, a, name, prefix) || DropsOne(p, b, name, prefix)
  {
    if DropsOne(p, a, name, prefix) {
      var i :| 0 <= i < |a| && !Keeps(p, a[i].key) && name == prefix + a[i].key;
      assert (a + b)[i] == a[i];
    }
    if DropsOne(p, b, name, prefix) {
      var i :| 0 <= i < |b| && !Keeps(p, b[i].key) && name == prefix + b[i].key;
      assert (a + b)[|a| + i] == b[i];
    }
  }

  lemma {:induction false} DroppedIff(p: Policy, fields: seq<Field>, name: string, prefix: string)
    ensures name in DroppedNames(p, fields, prefix) <==> DropsOne(p, fields, name, prefix)
    ensures |DroppedNames(p, fields, prefix)| + |KeptFields(p, fields)| == |fields|
  {
    if fields != [] {
      DroppedIff(p, fields[1..], name, prefix);
      assert fields == [fields[0]] + fields[1..];
      DropsEither(p, [fields[0]], fields[1..], name, prefix);
      assert [fields[0]][0] == fields[0];
    }
  }

  lemma {:induction false} DroppedAmongIff(p: Policy, items: seq<Value>, name: string, prefix: string)
    ensures name in DroppedInItems(p, items, prefix) <==> DropsOne(p, FieldsAmong(items), name, prefix)
    ensures |DroppedInItems(p, items, prefix)| + |FieldsAmong(FilteredItems(p, items))| == |FieldsAmong(items)|
  {
    if items != [] {
      var first := if items[0].Obj? || items[0].Arr? then Entries(items[0]) else [];
      DroppedAmongIff(p, items[1..], name, prefix);
      DroppedIff(p, first, name, prefix);
      DropsEither(p, first, FieldsAmong(items[1..]), name, prefix);
      assert FilteredItems(p, items)[1..] == FilteredItems(p, items[1..]);
    }
  }

  lemma DroppedBelowIff(p: Policy, v: Value, name: string, prefix: string)
    ensures name in DroppedInValue(p, v, prefix) <==> DropsOne(p, FieldsBelow(v), name, prefix)
    ensures |DroppedInValue(p, v, prefix)| + |FieldsBelow(FilteredValue(p, v))| == |FieldsBelow(v)|
  {
    match v {
      case Obj(fields) => DroppedIff(p, fields, name, prefix);
      case Arr(items) => DroppedAmongIff(p, items, name, prefix);
      case _ =>
    }
  }

  /** A top-level field of this name is dropped, or one below a field that is kept. */
  predicate Drops(p: Policy, f: Field, name: string) {
    if Keeps(p, f.key) then DropsOne(p, FieldsBelow(f.value), name, f.key + ".") else name == f.key
  }

  /** The log names exactly the fields dropped at the top level and one below. */
  lemma {:induction false} LoggedIff(p: Policy, fields: seq<Field>, name: string)
    ensures name in RedactionLog(p, fields) <==> exists i :: 0 <= i < |fields| && Drops(p, fields[i], name)
  {
    if fields != [] {
      var f := fields[0];
      LoggedIff(p, fields[1..], name);
      DroppedBelowIff(p, f.value, name, f.key + ".");
      assert name in RedactionLog(p, fields) <==> Drops(p, f, name) || name in RedactionLog(p, fields[1..]);
      if i :| 0 <= i < |fields[1..]| && Drops(p, fields[1..][i], name) { assert Drops(p, fields[i + 1], name); }
      if i :| 0 < i < |fields| && Drops(p, fields[i], name) { assert Drops(p, fields[1..][i - 1], name); }
    }
  }

  /** How many fields the redactor looks at: each at the top level, and each below one that is kept. */
  function LookedAt(p: Policy, fields: seq<Field>): nat {
    if fields == [] then 0
    else 1 + (if Keeps(p, fields[0].key) then |FieldsBelow(fields[0].value)| else 0) + LookedAt(p, fields[1..])
  }

  /** Every field the redactor looks at is kept or logged, and none is both. */
  lemma {:induction false} NothingIsLost(p: Policy, fields: seq<Field>)
    ensures LookedAt(p, RedactedFields(p, fields)) + |RedactionLog(p, fields)| == LookedAt(p, fields)
  {
    if fields != [] {
      var f := fields[0];
      NothingIsLost(p, fields[1..]);
      DroppedBelowIff(p, f.value, "", f.key + ".");
      var rest := RedactedFields(p, fields[1..]);
      if Keeps(p, f.key) {
        var kept := Field(f.key, FilteredValue(p, f.value));
        assert RedactedFields(p, fields) == [kept] + rest && ([kept] + rest)[1..] == rest;
        assert LookedAt(p, [kept] + rest) == 1 + |FieldsBelow(kept.value)| + LookedAt(p, rest);
      } else {
        assert RedactedFields(p, fields) == rest;
      }
    }
  }
}
