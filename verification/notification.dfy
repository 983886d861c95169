/**
 * Decoding of a change notification (`handleSubscribedChange`): the JSON
 * payload's `data` object is read field by field, matching the names
 * `key`, `value`, `version` and `metadata` case-insensitively, and turned
 * into a one-item update event for the subscription's handler. A field of
 * the wrong type makes a Go type assertion panic; the panic is recovered
 * and the handler is not called.
 */
module Notification {
  import opened Wrappers

  /**
   * A JSON value as `json.Unmarshal` produces it into `interface{}`.
   * An object's fields are listed in the order Go's map iteration visits them.
   */
  datatype Json =
    | JNull
    | JBool(b: bool)
    | JNumber(n: real)
    | JString(s: string)
    | JArray(items: seq<Json>)
    | JObject(fields: seq<Field>)

  datatype Field = Field(name: string, value: Json)

  /** A notification body: text that is no JSON at all, or the JSON value it holds. */
  datatype Payload = Malformed | Parsed(body: Json)

  /** A configuration item (`configuration.Item`). */
  datatype Item = Item(value: string, version: string, metadata: map<string, string>)

  /** `configuration.UpdateEvent`: changed items by key, and the subscription identifier. */
  datatype UpdateEvent = UpdateEvent(items: map<string, Item>, id: string)

  /** What the field loop collects: key, value, version and the metadata map. */
  datatype Row = Row(key: string, value: string, version: string, metadata: map<string, string>)

  const EmptyRow: Row := Row("", "", "", map[])

  /**
   * Go's `unicode.ToLower` on the runes that matter for the comparison with
   * the four lower-case ASCII field names: ASCII capitals, and the two
   * non-ASCII runes whose lower case is an ASCII letter (U+0130 to `i`,
   * the Kelvin sign U+212A to `k`). Every other rune is kept; Go maps none
   * of them to ASCII, so no comparison with an ASCII name changes.
   */
  function LowerRune(c: char): char
  {
    if 'A' <= c <= 'Z' then (c as int + 32) as char
    else if c == '\U{0130}' then 'i'
    else if c == '\U{212A}' then 'k'
    else c
  }

  /** `strings.ToLower`, rune by rune. */
  function Lower(s: string): (r: string)
    ensures |r| == |s|
    ensures forall i | 0 <= i < |s| :: r[i] == LowerRune(s[i])
  {
    seq(|s|, i requires 0 <= i < |s| => LowerRune(s[i]))
  }

  /** The field's name matches `target` (one of the four lower-case names) case-insensitively. */
  predicate Named(f: Field, target: string)
  {
    Lower(f.name) == target
  }

  /**
   * The runes Go's `unicode.ToLower` maps to the lower-case ASCII letter `c`:
   * `c` itself, its capital, and for `i` and `k` the runes U+0130 and U+212A.
   */
  function Spellings(c: char): set<char>
    requires 'a' <= c <= 'z'
  {
    if c == 'i' then {'i', 'I', '\U{0130}'}
    else if c == 'k' then {'k', 'K', '\U{212A}'}
    else {c, (c as int - 32) as char}
  }

  lemma LowerRuneSpellings(x: char, c: char)
    requires 'a' <= c <= 'z'
    ensures LowerRune(x) == c <==> x in Spellings(c)
  {
  }

  /**
   * A name lower-cases to one of the field names exactly when it has the
   * same length and each rune is one of the spellings of the letter there:
   * e.g. a name matches `key` exactly when it is three runes long, its first
   * is `k`, `K` or U+212A, its second `e` or `E`, its third `y` or `Y`.
   */
  lemma NameMatchSpellings(name: string, target: string)
    requires forall i | 0 <= i < |target| :: 'a' <= target[i] <= 'z'
    ensures Lower(name) == target <==>
      |name| == |target| && forall i | 0 <= i < |name| :: name[i] in Spellings(target[i])
  {
    if Lower(name) == target {
      forall i | 0 <= i < |name| ensures name[i] in Spellings(target[i]) {
        LowerRuneSpellings(name[i], target[i]);
      }
    }
    if |name| == |target| && forall i | 0 <= i < |name| :: name[i] in Spellings(target[i]) {
      forall i | 0 <= i < |name| ensures Lower(name)[i] == target[i] {
        LowerRuneSpellings(name[i], target[i]);
      }
    }
  }

  /** The names `handleSubscribedChange` switches on, spelled out rune by rune. */
  lemma KeySpellings(name: string)
    ensures Lower(name) == "key" <==>
      |name| == 3 && name[0] in {'k', 'K', '\U{212A}'} && name[1] in {'e', 'E'} && name[2] in {'y', 'Y'}
  {
    NameMatchSpellings(name, "key");
    if |name| == 3 {
      assert (forall i | 0 <= i < 3 :: name[i] in Spellings("key"[i])) <==>
        (name[0] in Spellings('k')
         && name[1] in Spellings('e') && name[2] in Spellings('y'));
    }
  }

  lemma ValueSpellings(name: string)
    ensures Lower(name) == "value" <==>
      |name| == 5 && name[0] in {'v', 'V'} && name[1] in {'a', 'A'} && name[2] in {'l', 'L'}
        && name[3] in {'u', 'U'} && name[4] in {'e', 'E'}
  {
    NameMatchSpellings(name, "value");
    if |name| == 5 {
      assert (forall i | 0 <= i < 5 :: name[i] in Spellings("value"[i])) <==>
        (name[0] in Spellings('v')
         && name[1] in Spellings('a') && name[2] in Spellings('l') && name[3] in Spellings('u')
         && name[4] in Spellings('e'));
    }
  }

  lemma VersionSpellings(name: string)
    ensures Lower(name) == "version" <==>
      |name| == 7 && name[0] in {'v', 'V'} && name[1] in {'e', 'E'} && name[2] in {'r', 'R'}
        && name[3] in {'s', 'S'} && name[4] in {'i', 'I', '\U{0130}'} && name[5] in {'o', 'O'}
        && name[6] in {'n', 'N'}
  {
    NameMatchSpellings(name, "version");
    if |name| == 7 {
      assert (forall i | 0 <= i < 7 :: name[i] in Spellings("version"[i])) <==>
        (name[0] in Spellings('v')
         && name[1] in Spellings('e') && name[2] in Spellings('r') && name[3] in Spellings('s')
         && name[4] in Spellings('i') && name[5] in Spellings('o') && name[6] in Spellings('n'));
    }
  }

  lemma MetadataSpellings(name: string)
    ensures Lower(name) == "metadata" <==>
      |name| == 8 && name[0] in {'m', 'M'} && name[1] in {'e', 'E'} && name[2] in {'t', 'T'}
        && name[3] in {'a', 'A'} && name[4] in {'d', 'D'} && name[5] in {'a', 'A'}
        && name[6] in {'t', 'T'} && name[7] in {'a', 'A'}
  {
    NameMatchSpellings(name, "metadata");
    if |name| == 8 {
      assert (forall i | 0 <= i < 8 :: name[i] in Spellings("metadata"[i])) <==>
        (name[0] in Spellings('m')
         && name[1] in Spellings('e') && name[2] in Spellings('t') && name[3] in Spellings('a')
         && name[4] in Spellings('d') && name[5] in Spellings('a') && name[6] in Spellings('t')
         && name[7] in Spellings('a'));
    }
  }

  predicate IsTextField(f: Field)
  {
    Named(f, "key") || Named(f, "value") || Named(f, "version")
  }

  /** The object's values are all strings: it converts to `map[string]string` without a panic. */
  predicate AllStrings(fields: seq<Field>)
  {
    forall i | 0 <= i < |fields| :: fields[i].value.JString?
  }

  /** The field passes its type assertion. Unmatched fields are never asserted. */
  predicate FieldDecodes(f: Field)
  {
    if IsTextField(f) then f.value.JString?
    else if Named(f, "metadata") then f.value.JObject? && AllStrings(f.value.fields)
    else true
  }

  /** No field of the `data` object makes the decoding panic. */
  predicate Decodes(fields: seq<Field>)
  {
    forall i | 0 <= i < |fields| :: FieldDecodes(fields[i])
  }

  function TextOf(v: Json): string
  {
    if v.JString? then v.s else ""
  }

  /** The string of the last field named `target`, or "" when there is none. */
  function LastText(fields: seq<Field>, target: string): string
  {
    if |fields| == 0 then ""
    else
      var f := fields[|fields| - 1];
      if Named(f, target) then TextOf(f.value) else LastText(fields[..|fields| - 1], target)
  }

  /** An object's entries as a string map, later entries overriding earlier ones. */
  function StringEntries(fields: seq<Field>): map<string, string>
  {
    if |fields| == 0 then map[]
    else
      var f := fields[|fields| - 1];
      StringEntries(fields[..|fields| - 1])[f.name := TextOf(f.value)]
  }

  /** All `metadata` objects merged in field order. */
  function MetadataOf(fields: seq<Field>): map<string, string>
  {
    if |fields| == 0 then map[]
    else
      var f := fields[|fields| - 1];
      var earlier := MetadataOf(fields[..|fields| - 1]);
      if Named(f, "metadata") && f.value.JObject? then earlier + StringEntries(f.value.fields) else earlier
  }

  /** The row the `data` object stands for, or nothing when a type assertion fails. */
  function RowOf(fields: seq<Field>): Option<Row>
  {
    if Decodes(fields)
    then Some(Row(LastText(fields, "key"), LastText(fields, "value"), LastText(fields, "version"), MetadataOf(fields)))
    else None
  }

  /** The last field with the given name, as a Go map index reads it. */
  function Lookup(fields: seq<Field>, name: string): Option<Json>
  {
    if |fields| == 0 then None
    else if fields[|fields| - 1].name == name then Some(fields[|fields| - 1].value)
    else Lookup(fields[..|fields| - 1], name)
  }

  function EventOf(row: Row, id: string): (e: UpdateEvent)
    ensures e.id == id && e.items.Keys == {row.key}
    ensures e.items[row.key] == Item(row.value, row.version, row.metadata)
  {
    UpdateEvent(map[row.key := Item(row.value, row.version, row.metadata)], id)
  }

  /**
   * The event handed to the handler, or `None` when the handler is not
   * called. A body that does not unmarshal into a map (malformed text, or a
   * JSON value other than an object or `null`) is dropped. A missing `data`
   * field, or one that is not an object, still yields an event with empty
   * key, value, version and metadata.
   */
  function Dispatched(payload: Payload, id: string): (r: Option<UpdateEvent>)
    ensures r.Some? ==> r.value.id == id && |r.value.items| == 1
    ensures payload.Malformed? ==> r.None?
    ensures payload.Parsed? && !payload.body.JObject? && !payload.body.JNull? ==> r.None?
  {
    match payload
    case Malformed => None
    case Parsed(body) =>
      if body.JNull? then Some(EventOf(EmptyRow, id))
      else if body.JObject? then
        match Lookup(body.fields, "data")
        case Some(JObject(data)) =>
          (match RowOf(data)
           case Some(row) => Some(EventOf(row, id))
           case None => None)
        case _ => Some(EventOf(EmptyRow, id))
      else None
  }

  /** Some field carries the name `target`. */
  predicate HasNamed(fields: seq<Field>, target: string)
  {
    exists i | 0 <= i < |fields| :: Named(fields[i], target)
  }

  /** The decoded text is that of the last field with the name; earlier ones are overwritten. */
  lemma {:induction false} LastNamedWins(fields: seq<Field>, target: string, i: nat)
    requires i < |fields| && Named(fields[i], target)
    requires forall j | i < j < |fields| :: !Named(fields[j], target)
    ensures LastText(fields, target) == TextOf(fields[i].value)
  {
    if i < |fields| - 1 {
      LastNamedWins(fields[..|fields| - 1], target, i);
    }
  }

  /** Without a field of that name the decoded text stays "". */
  lemma {:induction false} AbsentNameIsEmpty(fields: seq<Field>, target: string)
    requires !HasNamed(fields, target)
    ensures LastText(fields, target) == ""
  {
    if |fields| > 0 {
      var init := fields[..|fields| - 1];
      assert !Named(fields[|fields| - 1], target);
      assert !HasNamed(init, target) by {
        forall j | 0 <= j < |init| ensures !Named(init[j], target) {
          assert init[j] == fields[j];
        }
      }
      AbsentNameIsEmpty(init, target);
    }
  }

  /** The text of a concatenation comes from the later part when it has the name. */
  lemma {:induction false} LastTextAppend(a: seq<Field>, b: seq<Field>, target: string)
    ensures LastText(a + b, target) == if HasNamed(b, target) then LastText(b, target) else LastText(a, target)
    decreases |b|
  {
    if |b| == 0 {
      assert a + b == a;
    } else {
      var b' := b[..|b| - 1];
      assert (a + b)[..|a + b| - 1] == a + b';
      LastTextAppend(a, b', target);
      if !Named(b[|b| - 1], target) {
        if HasNamed(b', target) {
          var j :| 0 <= j < |b'| && Named(b'[j], target);
          assert b[j] == b'[j];
        }
        if HasNamed(b, target) {
          var j :| 0 <= j < |b| && Named(b[j], target);
          assert b'[j] == b[j];
        }
      }
    }
  }

  /** Metadata objects merge left to right across a concatenation. */
  lemma {:induction false} MetadataAppend(a: seq<Field>, b: seq<Field>)
    ensures MetadataOf(a + b) == MetadataOf(a) + MetadataOf(b)
    decreases |b|
  {
    if |b| == 0 {
      assert a + b == a;
    } else {
      var b' := b[..|b| - 1];
      assert (a + b)[..|a + b| - 1] == a + b';
      MetadataAppend(a, b');
    }
  }

  /** A concatenation decodes exactly when both parts do. */
  lemma DecodesAppend(a: seq<Field>, b: seq<Field>)
    ensures Decodes(a + b) <==> Decodes(a) && Decodes(b)
  {
    var ab := a + b;
    if Decodes(a) && Decodes(b) {
      forall i | 0 <= i < |ab| ensures FieldDecodes(ab[i]) {
        if i < |a| { assert ab[i] == a[i]; } else { assert ab[i] == b[i - |a|]; }
      }
    }
    if Decodes(ab) {
      forall i | 0 <= i < |a| ensures FieldDecodes(a[i]) { assert ab[i] == a[i]; }
      forall i | 0 <= i < |b| ensures FieldDecodes(b[i]) { assert ab[i + |a|] == b[i]; }
    }
  }

  /** Without a `metadata` field the metadata map stays empty. */
  lemma {:induction false} NoMetadataField(fields: seq<Field>)
    requires forall i | 0 <= i < |fields| :: !Named(fields[i], "metadata")
    ensures MetadataOf(fields) == map[]
  {
    if |fields| > 0 {
      var init := fields[..|fields| - 1];
      assert forall i | 0 <= i < |init| :: init[i] == fields[i];
      NoMetadataField(init);
    }
  }

  /** A field whose name is none of the four is ignored wherever it stands. */
  lemma UnmatchedFieldIgnored(a: seq<Field>, f: Field, b: seq<Field>)
    requires !IsTextField(f) && !Named(f, "metadata")
    ensures RowOf(a + [f] + b) == RowOf(a + b)
  {
    var af := a + [f];
    assert af[..|af| - 1] == a;
    forall t | t in {"key", "value", "version"}
      ensures LastText(af + b, t) == LastText(a + b, t)
    {
      LastTextAppend(af, b, t);
      LastTextAppend(a, b, t);
    }
    MetadataAppend(af, b);
    MetadataAppend(a, b);
    DecodesAppend(af, b);
    DecodesAppend(a, [f]);
    DecodesAppend(a, b);
  }

  lemma {:induction false} TextOfPair(f: Field, g: Field, target: string)
    requires !(Named(f, target) && Named(g, target))
    ensures LastText([f, g], target) == LastText([g, f], target)
    ensures HasNamed([f, g], target) == HasNamed([g, f], target)
  {
  }

  lemma SwapText(a: seq<Field>, f: Field, g: Field, b: seq<Field>, target: string)
    requires Lower(f.name) != Lower(g.name)
    ensures LastText(a + [f, g] + b, target) == LastText(a + [g, f] + b, target)
  {
    LastTextAppend(a + [f, g], b, target);
    LastTextAppend(a + [g, f], b, target);
    LastTextAppend(a, [f, g], target);
    LastTextAppend(a, [g, f], target);
    TextOfPair(f, g, target);
  }

  lemma SwapMetadata(a: seq<Field>, f: Field, g: Field, b: seq<Field>)
    requires Lower(f.name) != Lower(g.name)
    ensures MetadataOf(a + [f, g] + b) == MetadataOf(a + [g, f] + b)
  {
    MetadataAppend(a + [f, g], b);
    MetadataAppend(a + [g, f], b);
    MetadataAppend(a, [f, g]);
    MetadataAppend(a, [g, f]);
    assert [f] + [g] == [f, g] && [g] + [f] == [g, f];
    MetadataAppend([f], [g]);
    MetadataAppend([g], [f]);
    assert [f][..0] == [] && [g][..0] == [];
    assert MetadataOf([f]) == map[] || MetadataOf([g]) == map[];
  }

  /**
   * Go visits a map's keys in no fixed order. Exchanging two neighbouring
   * fields changes nothing unless both names fold to the same lower case;
   * hence the decoded row is independent of the order whenever the field
   * names differ after lower-casing.
   */
  lemma SwapDistinctNames(a: seq<Field>, f: Field, g: Field, b: seq<Field>)
    requires Lower(f.name) != Lower(g.name)
    ensures RowOf(a + [f, g] + b) == RowOf(a + [g, f] + b)
  {
    SwapText(a, f, g, b, "key");
    SwapText(a, f, g, b, "value");
    SwapText(a, f, g, b, "version");
    SwapMetadata(a, f, g, b);
    DecodesAppend(a + [f, g], b);
    DecodesAppend(a + [g, f], b);
    DecodesAppend(a, [f, g]);
    DecodesAppend(a, [g, f]);
    DecodesAppend([f], [g]);
    DecodesAppend([g], [f]);
    assert [f] + [g] == [f, g] && [g] + [f] == [g, f];
  }

  /**
   * A `data` object without panicking fields and with exactly one field
   * named `key` yields one event whose only item is under that key's string.
   */
  lemma EventKeyIsTheKeyField(data: seq<Field>, i: nat, id: string)
    requires Decodes(data)
    requires i < |data| && Named(data[i], "key")
    requires forall j | 0 <= j < |data| && j != i :: !Named(data[j], "key")
    ensures Dispatched(Parsed(JObject([Field("data", JObject(data))])), id).Some?
    ensures Dispatched(Parsed(JObject([Field("data", JObject(data))])), id).value.items.Keys == {data[i].value.s}
  {
    assert FieldDecodes(data[i]);
    LastNamedWins(data, "key", i);
  }

  /** A matched field of the wrong type: the panic is recovered and the handler is not called. */
  lemma WrongTypeDropsEvent(data: seq<Field>, i: nat, id: string, rest: seq<Field>)
    requires i < |data| && !FieldDecodes(data[i])
    requires Lookup(rest, "data").None?
    ensures Dispatched(Parsed(JObject(rest + [Field("data", JObject(data))])), id).None?
  {
  }

  /** Without a `data` object the handler is still called, with an empty key, value, version and metadata. */
  lemma MissingDataStillDispatched(fields: seq<Field>, id: string)
    requires Lookup(fields, "data").None? || !Lookup(fields, "data").value.JObject?
    ensures Dispatched(Parsed(JObject(fields)), id) == Some(UpdateEvent(map["" := Item("", "", map[])], id))
  {
  }

  lemma {:induction false} LowerPointwise(s: string, lower: string)
    requires |s| == |lower|
    requires forall i | 0 <= i < |s| :: LowerRune(s[i]) == lower[i]
    ensures Lower(s) == lower
  {
  }

  /** A mixed-case payload `{"data":{"Key":"k1","Value":"v1","Version":"1","Metadata":{"m":"x"}}}`. */
  lemma MixedCaseExample(id: string)
    ensures Dispatched(Parsed(JObject([Field("data", JObject([
      Field("Key", JString("k1")), Field("Value", JString("v1")), Field("Version", JString("1")),
      Field("Metadata", JObject([Field("m", JString("x"))]))]))])), id)
      == Some(UpdateEvent(map["k1" := Item("v1", "1", map["m" := "x"])], id))
  {
    var inner := [Field("m", JString("x"))];
    var data := [
      Field("Key", JString("k1")), Field("Value", JString("v1")), Field("Version", JString("1")),
      Field("Metadata", JObject(inner))];
    LowerPointwise("Key", "key");
    LowerPointwise("Value", "value");
    LowerPointwise("Version", "version");
    LowerPointwise("Metadata", "metadata");
    assert AllStrings(inner);
    assert Decodes(data) by {
      forall i | 0 <= i < 4 ensures FieldDecodes(data[i]) {
      }
    }
    LastNamedWins(data, "key", 0);
    LastNamedWins(data, "value", 1);
    LastNamedWins(data, "version", 2);
    assert inner[..0] == [];
    assert StringEntries(inner) == map["m" := "x"];
    NoMetadataField(data[..3]);
    assert data[..3] == data[..|data| - 1];
    assert MetadataOf(data) == map["m" := "x"];
    assert RowOf(data) == Some(Row("k1", "v1", "1", map["m" := "x"]));
    var top := [Field("data", JObject(data))];
    assert top[..0] == [];
    assert Lookup(top, "data") == Some(JObject(data));
  }

  /**
   * The loop over the `data` object's fields, with the nested loop that
   * copies a `metadata` object. Returns `None` where a type assertion panics.
   */
  method DecodeRow(fields: seq<Field>) returns (row: Option<Row>)
    ensures row == RowOf(fields)
  {
    var key, value, version := "", "", "";
    var m: map<string, string> := map[];
    var i := 0;
    while i < |fields|
      invariant 0 <= i <= |fields|
      invariant Decodes(fields[..i])
      invariant key == LastText(fields[..i], "key")
      invariant value == LastText(fields[..i], "value")
      invariant version == LastText(fields[..i], "version")
      invariant m == MetadataOf(fields[..i])
    {
      var f := fields[i];
      assert fields[..i + 1][..i] == fields[..i];
      var name := Lower(f.name);
      if name == "key" || name == "value" || name == "version" {
        if !f.value.JString? {
          return None;
        }
        if name == "key" {
          key := f.value.s;
        } else if name == "value" {
          value := f.value.s;
        } else {
          version := f.value.s;
        }
      } else if name == "metadata" {
        if !f.value.JObject? {
          return None;
        }
        var entries := f.value.fields;
        var before := m;
        var j := 0;
        while j < |entries|
          invariant 0 <= j <= |entries|
          invariant AllStrings(entries[..j])
          invariant m == before + StringEntries(entries[..j])
        {
          if !entries[j].value.JString? {
            return None;
          }
          assert entries[..j + 1][..j] == entries[..j];
          m := m[entries[j].name := entries[j].value.s];
          j := j + 1;
        }
        assert entries[..j] == entries;
      }
      i := i + 1;
    }
    assert fields[..i] == fields;
    row := Some(Row(key, value, version, m));
  }

  /**
   * `handleSubscribedChange`: the event passed to the handler, if any. This
   * is the imperative host of the field loop `DecodeRow`: it follows the Go
   * control flow step by step, and `Dispatched` is its declarative
   * specification, which the lemmas above are about.
   */
  method HandleSubscribedChange(payload: Payload, id: string) returns (event: Option<UpdateEvent>)
    ensures event == Dispatched(payload, id)
  {
    if payload.Malformed? {
      return None;
    }
    var body := payload.body;
    if !body.JObject? && !body.JNull? {
      return None;
    }
    var row := EmptyRow;
    if body.JObject? {
      var data := Lookup(body.fields, "data");
      if data.Some? && data.value.JObject? {
        var decoded := DecodeRow(data.value.fields);
        if decoded.None? {
          return None;
        }
        row := decoded.value;
      }
    }
    event := Some(EventOf(row, id));
  }
}
