/**
 Which of its two codes the processor quarantines a payload with. It looks for two words in the
 complaints, so a field name that spells them counts as an always-redacted one.
 */
module RedactionCodes {
  import opened Wrappers
  import opened Json
  import opened Redaction
  import RA = RedactionAgreement

  /** The check comes to an always-redacted key, at some depth. */
  predicate Reaches(p: Policy, fields: seq<Field>)
    decreases fields
  {
    fields != [] && (ReachesIn(p, fields[0]) || Reaches(p, fields[1..]))
  }

  predicate ReachesIn(p: Policy, f: Field)
    decreases f
  {
    Lower(f.key) in p.always || (f.key in p.allowed && ReachesBelow(p, f.value))
  }

  predicate ReachesBelow(p: Policy, v: Value)
    decreases v
  {
    match v
    case Obj(fields) => Reaches(p, fields)
    case Arr(items) => ReachesAmong(p, items)
    case _ => false
  }

  predicate ReachesAmong(p: Policy, items: seq<Value>)
    decreases items
  {
    items != [] && ((items[0].Obj? && Reaches(p, items[0].fields)) || ReachesAmong(p, items[1..]))
  }

  predicate Spells(name: string) {
    Contains(name, "always-redacted")
  }

  /** No field name, at any depth, spells the two words. */
  predicate Plain(fields: seq<Field>)
    decreases fields
  {
    fields != [] ==> !Spells(fields[0].key) && PlainBelow(fields[0].value) && Plain(fields[1..])
  }

  predicate PlainBelow(v: Value)
    decreases v
  {
    match v
    case Obj(fields) => Plain(fields)
    case Arr(items) => PlainAmong(items)
    case _ => true
  }

  predicate PlainAmong(items: seq<Value>)
    decreases items
  {
    items != [] ==> (items[0].Obj? ==> Plain(items[0].fields)) && PlainAmong(items[1..])
  }

  predicate Marked(violations: seq<string>) {
    exists i :: 0 <= i < |violations| && Spells(violations[i])
  }

  lemma MarkedEither(a: seq<string>, b: seq<string>)
    ensures Marked(a + b) <==> Marked(a) || Marked(b)
  {
    if Marked(a) { var i :| 0 <= i < |a| && Spells(a[i]); assert (a + b)[i] == a[i]; }
    if Marked(b) { var i :| 0 <= i < |b| && Spells(b[i]); assert (a + b)[|a| + i] == b[i]; }
  }

  lemma AlwaysIsMarked(path: string)
    ensures Marked([path + ALWAYS_SUFFIX])
  {
    var v := path + ALWAYS_SUFFIX;
    assert v[|path| + 2..|path| + 17] == "always-redacted";
    assert OccursAt(v, "always-redacted", |path| + 2);
    assert [v][0] == v;
  }

  /** The two words hold neither a dot nor a blank, so they do not span one. */
  lemma SpansNothing(text: string, i: nat, at: nat)
    requires i <= at < i + 15 && i + 15 <= |text| && (text[at] == '.' || text[at] == ' ')
    ensures !OccursAt(text, "always-redacted", i)
  {
    assert text[i..i + 15][at - i] == text[at];
    assert "always-redacted"[at - i] != text[at];
  }

  lemma SpelledOnOneSide(left: string, c: char, right: string)
    requires c == '.' || c == ' '
    ensures Spells(left + [c] + right) ==> Spells(left) || Spells(right)
  {
    var text := left + [c] + right;
    forall i | 0 <= i <= |text| - 15 && OccursAt(text, "always-redacted", i)
      ensures Spells(left) || Spells(right)
    {
      if i + 15 <= |left| {
        assert left[i..i + 15] == text[i..i + 15];
        assert OccursAt(left, "always-redacted", i);
      } else if i <= |left| {
        SpansNothing(text, i, |left|);
      } else {
        var j := i - |left| - 1;
        assert right[j..j + 15] == text[i..i + 15];
        assert OccursAt(right, "always-redacted", j);
      }
    }
  }

  lemma JoinedIsPlain(prefix: string, key: string)
    requires !Spells(prefix) && !Spells(key)
    ensures !Spells(Joined(prefix, key))
  {
    if prefix != "" {
      assert prefix + "." + key == prefix + ['.'] + key;
      SpelledOnOneSide(prefix, '.', key);
    }
  }

  lemma UnlistedIsNotMarked(path: string)
    requires !Spells(path)
    ensures !Marked([path + UNLISTED_SUFFIX])
  {
    var rest := "(not in minimum-necessary allow-list)";
    assert path + UNLISTED_SUFFIX == path + [' '] + rest;
    SpelledOnOneSide(path, ' ', rest);
    RestIsPlain(rest);
    assert [path + UNLISTED_SUFFIX][0] == path + UNLISTED_SUFFIX;
  }

  lemma RestIsPlain(rest: string)
    requires rest == "(not in minimum-necessary allow-list)"
    ensures !Spells(rest)
  {
    forall i | 0 <= i <= |rest| - 15
      ensures !OccursAt(rest, "always-redacted", i)
    {
      assert rest[i + 2] != 'w';
      assert rest[i..i + 15][2] == rest[i + 2];
    }
  }

  lemma {:induction false} MarkedIff(p: Policy, fields: seq<Field>, prefix: string)
    ensures Reaches(p, fields) ==> Marked(Violations(p, fields, prefix))
    ensures Plain(fields) && !Spells(prefix) && !Reaches(p, fields) ==> !Marked(Violations(p, fields, prefix))
    decreases fields, 1
  {
    if fields != [] {
      MarkedInIff(p, fields[0], prefix);
      MarkedIff(p, fields[1..], prefix);
      MarkedEither(FieldViolations(p, fields[0], prefix), Violations(p, fields[1..], prefix));
    }
  }

  lemma {:induction false} MarkedInIff(p: Policy, f: Field, prefix: string)
    ensures ReachesIn(p, f) ==> Marked(FieldViolations(p, f, prefix))
    ensures !Spells(f.key) && PlainBelow(f.value) && !Spells(prefix) && !ReachesIn(p, f) ==>
              !Marked(FieldViolations(p, f, prefix))
    decreases f, 0
  {
    var path := Joined(prefix, f.key);
    if Lower(f.key) in p.always {
      AlwaysIsMarked(path);
    } else if f.key in p.allowed {
      MarkedBelowIff(p, f.value, path);
      if !Spells(f.key) && !Spells(prefix) { JoinedIsPlain(prefix, f.key); }
    } else if !Spells(f.key) && !Spells(prefix) {
      JoinedIsPlain(prefix, f.key);
      UnlistedIsNotMarked(path);
    }
  }

  lemma {:induction false} MarkedBelowIff(p: Policy, v: Value, path: string)
    ensures ReachesBelow(p, v) ==> Marked(ValueViolations(p, v, path))
    ensures PlainBelow(v) && !Spells(path) && !ReachesBelow(p, v) ==> !Marked(ValueViolations(p, v, path))
    decreases v, 0
  {
    match v {
      case Obj(fields) => MarkedIff(p, fields, path);
      case Arr(items) => MarkedAmongIff(p, items, path);
      case _ =>
    }
  }

  lemma {:induction false} MarkedAmongIff(p: Policy, items: seq<Value>, path: string)
    ensures ReachesAmong(p, items) ==> Marked(ItemViolations(p, items, path))
    ensures PlainAmong(items) && !Spells(path) && !ReachesAmong(p, items) ==> !Marked(ItemViolations(p, items, path))
    decreases items, 0
  {
    if items != [] {
      if items[0].Obj? { MarkedIff(p, items[0].fields, path); }
      MarkedAmongIff(p, items[1..], path);
      MarkedEither(ItemViolation(p, items[0], path), ItemViolations(p, items[1..], path));
    }
  }

  /**
   A payload that is not clean is refused as holding an always-redacted field if the check comes to
   one, and as going beyond the minimum necessary if it does not and no field name spells the words.
   */
  lemma UncleanCode(p: Policy, payload: Value)
    requires !payload.Null? && !RA.CleanFields(p, Entries(payload))
    ensures Enforced(Some(p), payload).Failure?
    ensures var code := Enforced(Some(p), payload).error.code;
            && code in {"ALWAYS_REDACTED_FIELD_PRESENT", "MINIMUM_NECESSARY_VIOLATION"}
            && (Reaches(p, Entries(payload)) ==> code == "ALWAYS_REDACTED_FIELD_PRESENT")
            && (Plain(Entries(payload)) && !Reaches(p, Entries(payload)) ==> code == "MINIMUM_NECESSARY_VIOLATION")
  {
    RA.PassesIffClean(p, Entries(payload), "");
    MarkedIff(p, Entries(payload), "");
    assert !Spells("");
  }
}
