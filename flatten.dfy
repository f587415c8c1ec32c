/** The record flattener of `PersonioStream.parse_response`: each item of a
    response's `data` array becomes one flat record holding the allow-listed
    attributes, each replaced by its "value", and a "value" that is an entity
    (an object) replaced by that entity's own attributes, unwrapped one level.
    The allow-list is the key set of the stream schema's `properties`. */
module Flatten {
  import opened JsonData

  // ---------------------------------------------------------------------------
  // Shapes the code relies on: anything else makes it raise.
  // ---------------------------------------------------------------------------

  /** An allow-listed attribute is read with `.get("value")`, so it is an object;
      when its value is an entity, that entity's "attributes", if present, is
      iterated with `.items()`, so it is an object too. */
  predicate AttributeShaped(attr: Json) {
    && attr.JObj?
    && var v := Get(attr, "value", JNull);
       v.JObj? ==> Get(v, "attributes", JObj([])).JObj?
  }

  predicate AttributesShaped(attrs: Fields, allow: set<string>) {
    forall i :: 0 <= i < |attrs| && attrs[i].0 in allow ==> AttributeShaped(attrs[i].1)
  }

  /** A data item is read with `.get("attributes", {})` and then `.items()`. */
  predicate ItemShaped(item: Json, allow: set<string>) {
    && item.JObj?
    && Get(item, "attributes", JObj([])).JObj?
    && AttributesShaped(Get(item, "attributes", JObj([])).fields, allow)
  }

  predicate ItemsShaped(items: seq<Json>, allow: set<string>) {
    forall i :: 0 <= i < |items| ==> ItemShaped(items[i], allow)
  }

  /** The body is a dict whose "data" is a list of shaped items. */
  predicate ResponseShaped(body: Json, allow: set<string>) {
    && body.JObj?
    && Get(body, "data", JNull).JArr?
    && ItemsShaped(Get(body, "data", JNull).items, allow)
  }

  // ---------------------------------------------------------------------------
  // The flattening, as functions.
  // ---------------------------------------------------------------------------

  /** A nested sub-entry: an object is replaced by its "value" (null when it has
      none); anything else is kept. */
  function UnwrapEntry(sub: Json): Json {
    if sub.JObj? then Get(sub, "value", JNull) else sub
  }

  /** The nested attributes map, every entry unwrapped once, keys untouched. */
  function UnwrapSubAttributes(sub: Fields): (r: Fields)
    ensures |r| == |sub|
    ensures forall i :: 0 <= i < |sub| ==> r[i] == (sub[i].0, UnwrapEntry(sub[i].1))
    decreases |sub|
  {
    if sub == [] then []
    else UnwrapSubAttributes(sub[..|sub| - 1]) + [(sub[|sub| - 1].0, UnwrapEntry(sub[|sub| - 1].1))]
  }

  /** The nested map an entity flattens to: its "attributes", or `{}` when it has none. */
  function EntityAttributes(entity: Json): Fields
    requires entity.JObj? && Get(entity, "attributes", JObj([])).JObj?
  {
    Get(entity, "attributes", JObj([])).fields
  }

  /** The output value of one allow-listed attribute. */
  function FlattenValue(attr: Json): Json
    requires AttributeShaped(attr)
  {
    var v := Get(attr, "value", JNull);
    if v.JObj? then JObj(UnwrapSubAttributes(EntityAttributes(v))) else v
  }

  /** The flat record of one attributes map; built the way the loop builds it,
      one input entry at a time. */
  function FlattenAttributes(attrs: Fields, allow: set<string>): (r: Fields)
    requires AttributesShaped(attrs, allow)
    decreases |attrs|
  {
    if attrs == [] then []
    else
      var last := attrs[|attrs| - 1];
      var init := FlattenAttributes(attrs[..|attrs| - 1], allow);
      if last.0 in allow then init + [(last.0, FlattenValue(last.1))] else init
  }

  function FlattenItem(item: Json, allow: set<string>): (r: Json)
    requires ItemShaped(item, allow)
    ensures r.JObj?
    ensures Lookup(item.fields, "attributes").None? ==> r == JObj([])
  {
    JObj(FlattenAttributes(Get(item, "attributes", JObj([])).fields, allow))
  }

  /** The records of a list of items: one per item, in the same order. */
  function FlattenAll(items: seq<Json>, allow: set<string>): (r: seq<Json>)
    requires ItemsShaped(items, allow)
    ensures |r| == |items|
    ensures forall i :: 0 <= i < |items| ==> r[i] == FlattenItem(items[i], allow)
    decreases |items|
  {
    if items == [] then []
    else FlattenAll(items[..|items| - 1], allow) + [FlattenItem(items[|items| - 1], allow)]
  }

  /** Everything `parse_response` yields for one response body. */
  function Records(body: Json, allow: set<string>): seq<Json>
    requires ResponseShaped(body, allow)
  {
    FlattenAll(Get(body, "data", JNull).items, allow)
  }

  // ---------------------------------------------------------------------------
  // The generator loop of `parse_response`.
  // ---------------------------------------------------------------------------

  /** The generator: one record per item of `data`, in order. */
  method ParseResponse(body: Json, allow: set<string>) returns (records: seq<Json>)
    requires WellFormed(body) && ResponseShaped(body, allow)
    ensures records == Records(body, allow)
  {
    var data := Get(body, "data", JNull).items;
    records := [];
    var n := 0;
    while n < |data|
      invariant 0 <= n <= |data|
      invariant records == FlattenAll(data[..n], allow)
    {
      DistinctAttributeNames(body, allow, n);
      var attributes := Get(data[n], "attributes", JObj([])).fields;
      var response := FlattenRecord(attributes, allow);
      FlattenAllStep(data, allow, n);
      records := records + [JObj(response)];
      n := n + 1;
    }
    assert data[..|data|] == data;
  }

  /** The attribute names of every item of a well-formed response are distinct. */
  lemma DistinctAttributeNames(body: Json, allow: set<string>, n: nat)
    requires WellFormed(body) && ResponseShaped(body, allow)
    requires n < |Get(body, "data", JNull).items|
    ensures DistinctKeys(Get(Get(body, "data", JNull).items[n], "attributes", JObj([])).fields)
  {
    LookupWellFormed(body.fields, "data");
    var item := Get(body, "data", JNull).items[n];
    LookupWellFormed(item.fields, "attributes");
  }

  lemma FlattenAllStep(items: seq<Json>, allow: set<string>, n: nat)
    requires ItemsShaped(items, allow) && n < |items|
    ensures ItemsShaped(items[..n], allow)
    ensures FlattenAll(items[..n + 1], allow) == FlattenAll(items[..n], allow) + [FlattenItem(items[n], allow)]
  {
    assert items[..n + 1][..n] == items[..n];
  }

  /** The body of the generator loop: builds the record key by key. */
  method FlattenRecord(attributes: Fields, allow: set<string>) returns (response: Fields)
    requires DistinctKeys(attributes) && AttributesShaped(attributes, allow)
    ensures response == FlattenAttributes(attributes, allow)
  {
    response := [];
    var i := 0;
    while i < |attributes|
      invariant 0 <= i <= |attributes|
      invariant response == FlattenAttributes(attributes[..i], allow)
    {
      var (attribute, value) := attributes[i];
      FlattenAttributesStep(attributes, allow, i);
      if attribute in allow {
        ghost var before := response;
        FreshAttributeName(attributes, allow, i);
        AssignFresh(response, attribute, Get(value, "value", JNull));
        response := Set(response, attribute, Get(value, "value", JNull));
        var current := Get(JObj(response), attribute, JNull);
        if current.JObj? {
          var subAttributes := UnwrapInPlace(Get(current, "attributes", JObj([])).fields);
          response := Set(response, attribute, JObj(subAttributes));
        }
      }
      i := i + 1;
    }
    assert attributes[..|attributes|] == attributes;
  }

  lemma FlattenAttributesStep(attrs: Fields, allow: set<string>, i: nat)
    requires AttributesShaped(attrs, allow) && i < |attrs|
    ensures AttributesShaped(attrs[..i], allow)
    ensures FlattenAttributes(attrs[..i + 1], allow)
            == FlattenAttributes(attrs[..i], allow)
               + if attrs[i].0 in allow then [(attrs[i].0, FlattenValue(attrs[i].1))] else []
  {
    assert attrs[..i + 1][..i] == attrs[..i];
  }

  /** An allow-listed name about to be added is not yet a key of the record. */
  lemma FreshAttributeName(attrs: Fields, allow: set<string>, i: nat)
    requires DistinctKeys(attrs) && AttributesShaped(attrs, allow) && i < |attrs|
    ensures attrs[i].0 !in Keys(FlattenAttributes(attrs[..i], allow))
  {
    KeysOfPrefix(attrs, i);
    FlattenAttributesKeySet(attrs[..i], allow, attrs[i].0);
  }

  /** The nested loop: rewrites each sub-entry that is an object to its "value",
      in place, while walking the map. */
  method UnwrapInPlace(original: Fields) returns (subAttributes: Fields)
    ensures subAttributes == UnwrapSubAttributes(original)
  {
    subAttributes := original;
    var j := 0;
    while j < |subAttributes|
      invariant 0 <= j <= |subAttributes| == |original|
      invariant forall k :: 0 <= k < j ==> subAttributes[k] == (original[k].0, UnwrapEntry(original[k].1))
      invariant forall k :: j <= k < |original| ==> subAttributes[k] == original[k]
    {
      var (subAttribute, subValue) := subAttributes[j];
      assert (subAttribute, subValue) == original[j];
      if subValue.JObj? {
        subAttributes := subAttributes[j := (subAttribute, Get(subValue, "value", JNull))];
      }
      assert subAttributes[j] == (original[j].0, UnwrapEntry(original[j].1));
      j := j + 1;
    }
    ghost var expected := UnwrapSubAttributes(original);
    assert |subAttributes| == |expected|;
    assert forall k :: 0 <= k < |expected| ==> subAttributes[k] == expected[k];
  }

  // ---------------------------------------------------------------------------
  // What the flattening promises.
  // ---------------------------------------------------------------------------

  lemma KeysOfPrefix(attrs: Fields, i: nat)
    requires DistinctKeys(attrs) && i < |attrs|
    ensures attrs[i].0 !in Keys(attrs[..i])
  {
  }

  /** The allow-list filter over a list of keys, kept in order: the reference
      definition of which keys a record has. */
  function Filtered(ks: seq<string>, allow: set<string>): (r: seq<string>)
  {
    if ks == [] then []
    else (if ks[0] in allow then [ks[0]] else []) + Filtered(ks[1..], allow)
  }

  lemma {:induction false} FilteredAppend(ks: seq<string>, k: string, allow: set<string>)
    ensures Filtered(ks + [k], allow) == Filtered(ks, allow) + (if k in allow then [k] else [])
  {
    if ks != [] {
      assert (ks + [k])[1..] == ks[1..] + [k];
      FilteredAppend(ks[1..], k, allow);
    }
  }

  lemma {:induction false} FilteredMembers(ks: seq<string>, allow: set<string>, k: string)
    ensures k in Filtered(ks, allow) <==> k in allow && k in ks
  {
    if ks != [] {
      FilteredMembers(ks[1..], allow, k);
      assert ks == [ks[0]] + ks[1..];
    }
  }

  /** The record's keys are exactly the allow-listed attribute names, in input order. */
  lemma {:induction false} FlattenAttributesKeys(attrs: Fields, allow: set<string>)
    requires AttributesShaped(attrs, allow)
    ensures Keys(FlattenAttributes(attrs, allow)) == Filtered(Keys(attrs), allow)
  {
    if attrs != [] {
      var init := attrs[..|attrs| - 1];
      var last := attrs[|attrs| - 1];
      FlattenAttributesKeys(init, allow);
      assert attrs == init + [last];
      KeysAppend(init, last);
      FilteredAppend(Keys(init), last.0, allow);
      if last.0 in allow {
        KeysAppend(FlattenAttributes(init, allow), (last.0, FlattenValue(last.1)));
      }
    }
  }

  /** A name is a key of the record exactly when it is allow-listed and an
      attribute of the input: names outside the schema never appear, and no
      allow-listed attribute is lost. */
  lemma {:induction false} FlattenAttributesKeySet(attrs: Fields, allow: set<string>, k: string)
    requires AttributesShaped(attrs, allow)
    ensures k in Keys(FlattenAttributes(attrs, allow)) <==> k in allow && k in Keys(attrs)
  {
    FlattenAttributesKeys(attrs, allow);
    FilteredMembers(Keys(attrs), allow, k);
  }

  lemma {:induction false} FilteredDistinct(ks: seq<string>, allow: set<string>)
    requires forall i, j :: 0 <= i < j < |ks| ==> ks[i] != ks[j]
    ensures var f := Filtered(ks, allow); forall i, j :: 0 <= i < j < |f| ==> f[i] != f[j]
  {
    if ks != [] {
      var rest := Filtered(ks[1..], allow);
      FilteredDistinct(ks[1..], allow);
      FilteredMembers(ks[1..], allow, ks[0]);
      assert ks[0] !in ks[1..];
      if ks[0] in allow {
        var f := [ks[0]] + rest;
        forall i, j | 0 <= i < j < |f| ensures f[i] != f[j] {
          if i == 0 { assert f[j] == rest[j - 1]; } else { assert f[i] == rest[i - 1] && f[j] == rest[j - 1]; }
        }
      }
    }
  }

  /** A record is a dict: its keys are distinct when the attribute names are. */
  lemma FlattenAttributesDistinct(attrs: Fields, allow: set<string>)
    requires AttributesShaped(attrs, allow) && DistinctKeys(attrs)
    ensures DistinctKeys(FlattenAttributes(attrs, allow))
  {
    var r := FlattenAttributes(attrs, allow);
    FlattenAttributesKeys(attrs, allow);
    FilteredDistinct(Keys(attrs), allow);
    forall i, j | 0 <= i < j < |r| ensures r[i].0 != r[j].0 {
      assert Keys(r)[i] == r[i].0 && Keys(r)[j] == r[j].0;
    }
  }

  /** Reading a record by name gives the flattened value of the attribute with
      that name when it is allow-listed, and nothing otherwise. */
  lemma {:induction false} FlattenAttributesLookup(attrs: Fields, allow: set<string>, k: string)
    requires AttributesShaped(attrs, allow) && DistinctKeys(attrs)
    ensures Lookup(FlattenAttributes(attrs, allow), k)
            == if k in allow && Lookup(attrs, k).Some?
               then Some(FlattenValue(Lookup(attrs, k).value)) else None
  {
    var r := FlattenAttributes(attrs, allow);
    FlattenAttributesKeySet(attrs, allow, k);
    if k in allow && Lookup(attrs, k).Some? {
      FlattenAttributesDistinct(attrs, allow);
      var j :| 0 <= j < |r| && Keys(r)[j] == k;
      LookupAt(r, j);
      var i := FlattenAttributesEntry(attrs, allow, j);
      LookupAt(attrs, i);
    }
  }

  /** Every record entry is the flattened value of an allow-listed input attribute
      of the same name. */
  lemma {:induction false} FlattenAttributesEntry(attrs: Fields, allow: set<string>, j: nat) returns (i: nat)
    requires AttributesShaped(attrs, allow)
    requires j < |FlattenAttributes(attrs, allow)|
    ensures i < |attrs| && attrs[i].0 in allow
    ensures FlattenAttributes(attrs, allow)[j] == (attrs[i].0, FlattenValue(attrs[i].1))
    decreases |attrs|
  {
    var init := attrs[..|attrs| - 1];
    if j < |FlattenAttributes(init, allow)| {
      i := FlattenAttributesEntry(init, allow, j);
    } else {
      i := |attrs| - 1;
    }
  }

  /** Output records are well-formed dicts whenever the input was. */
  lemma FlattenItemWellFormed(item: Json, allow: set<string>)
    requires WellFormed(item) && ItemShaped(item, allow)
    ensures WellFormed(FlattenItem(item, allow))
  {
    LookupWellFormed(item.fields, "attributes");
    var attrs := Get(item, "attributes", JObj([])).fields;
    var r := FlattenAttributes(attrs, allow);
    FlattenAttributesDistinct(attrs, allow);
    forall j | 0 <= j < |r| ensures WellFormed(r[j].1) {
      var i := FlattenAttributesEntry(attrs, allow, j);
      FlattenValueWellFormed(attrs[i].1);
    }
  }

  lemma FlattenValueWellFormed(attr: Json)
    requires WellFormed(attr) && AttributeShaped(attr)
    ensures WellFormed(FlattenValue(attr))
  {
    LookupWellFormed(attr.fields, "value");
    var v := Get(attr, "value", JNull);
    if v.JObj? {
      LookupWellFormed(v.fields, "attributes");
      var sub := EntityAttributes(v);
      var r := UnwrapSubAttributes(sub);
      forall i | 0 <= i < |r| ensures WellFormed(r[i].1) {
        if sub[i].1.JObj? { LookupWellFormed(sub[i].1.fields, "value"); }
      }
      forall i, j | 0 <= i < j < |r| ensures r[i].0 != r[j].0 {
        assert r[i].0 == sub[i].0 && r[j].0 == sub[j].0;
      }
    }
  }

  /** The value of an allow-listed attribute: null when it has no "value"; the
      "value" itself when that is not an entity; and when it is an entity, a map
      with exactly the keys of the entity's attributes (none when it has no
      "attributes"), in their order. */
  lemma FlattenValueCases(attr: Json)
    requires AttributeShaped(attr)
    ensures var v := Lookup(attr.fields, "value"); var r := FlattenValue(attr);
            && (v.None? ==> r == JNull)
            && (v.Some? && !v.value.JObj? ==> r == v.value)
            && (v.Some? && v.value.JObj? ==>
                  && r.JObj?
                  && Keys(r.fields) == Keys(EntityAttributes(v.value))
                  && (Lookup(v.value.fields, "attributes").None? ==> r.fields == []))
  {
    var v := Lookup(attr.fields, "value");
    if v.Some? && v.value.JObj? {
      var sub := EntityAttributes(v.value);
      var r := UnwrapSubAttributes(sub);
      assert Keys(r) == Keys(sub);
    }
  }

  /** Exactly one level is unwrapped: the entity's sibling keys (such as "type")
      are dropped, and a sub-entry whose "value" is itself an entity comes out
      as that entity, untouched. */
  lemma OneLevelOnly(attr: Json, i: nat)
    requires AttributeShaped(attr)
    requires Lookup(attr.fields, "value").Some? && Lookup(attr.fields, "value").value.JObj?
    requires i < |EntityAttributes(Lookup(attr.fields, "value").value)|
    ensures var sub := EntityAttributes(Lookup(attr.fields, "value").value);
            var r := FlattenValue(attr);
            && r == JObj(UnwrapSubAttributes(sub))
            && (sub[i].1.JObj? && Lookup(sub[i].1.fields, "value").Some?
                ==> r.fields[i] == (sub[i].0, Lookup(sub[i].1.fields, "value").value))
  {
  }

  // ---------------------------------------------------------------------------
  // The unit test's fixture.
  // ---------------------------------------------------------------------------

  function FieldAttribute(caption: string, value: Json, kind: string, universalId: string): Json {
    JObj([("label", JStr(caption)), ("value", value), ("type", JStr(kind)), ("universal_id", JStr(universalId))])
  }

  function FixtureId(): Json {
    FieldAttribute("ID", JInt(1), "integer", "id")
  }

  function FixtureEntity(): Json {
    JObj([("type", JStr("Employee")), ("attributes", JObj([("id", FixtureId())]))])
  }

  function FixtureAttributes(): Fields {
    [("id", FixtureId()), ("supervisor", FieldAttribute("Supervisor", FixtureEntity(), "standard", "supervisor"))]
  }

  function FixtureResponse(): Json {
    JObj([("data", JArr([JObj([("attributes", JObj(FixtureAttributes()))])]))])
  }

  lemma {:induction false} FixtureValues()
    ensures AttributeShaped(FixtureId()) && FlattenValue(FixtureId()) == JInt(1)
    ensures AttributeShaped(FixtureAttributes()[1].1)
    ensures FlattenValue(FixtureAttributes()[1].1) == JObj([("id", JInt(1))])
  {
    assert Get(FixtureId(), "value", JNull) == JInt(1);
    var supervisor := FixtureAttributes()[1].1;
    assert Get(supervisor, "value", JNull) == FixtureEntity();
    assert Get(FixtureEntity(), "attributes", JObj([])) == JObj([("id", FixtureId())]);
    assert UnwrapSubAttributes([("id", FixtureId())]) == [("id", JInt(1))];
  }

  lemma FlattenAttributesPair(a: (string, Json), b: (string, Json), allow: set<string>)
    requires a.0 in allow && b.0 in allow && AttributeShaped(a.1) && AttributeShaped(b.1)
    ensures AttributesShaped([a, b], allow)
    ensures FlattenAttributes([a, b], allow) == [(a.0, FlattenValue(a.1)), (b.0, FlattenValue(b.1))]
  {
    var attrs := [a, b];
    assert AttributesShaped(attrs, allow);
    FlattenAttributesStep(attrs, allow, 0);
    FlattenAttributesStep(attrs, allow, 1);
    assert attrs[..0] == [] && attrs[..2] == attrs;
  }

  lemma FixtureRecord(allow: set<string>)
    requires "id" in allow && "supervisor" in allow
    ensures AttributesShaped(FixtureAttributes(), allow)
    ensures FlattenAttributes(FixtureAttributes(), allow)
            == [("id", JInt(1)), ("supervisor", JObj([("id", JInt(1))]))]
  {
    FixtureValues();
    FlattenAttributesPair(FixtureAttributes()[0], FixtureAttributes()[1], allow);
    assert FixtureAttributes() == [FixtureAttributes()[0], FixtureAttributes()[1]];
  }

  /** A body holding a single item whose only key is "attributes". */
  lemma SingleItemRecords(attrs: Fields, allow: set<string>)
    requires AttributesShaped(attrs, allow)
    ensures var body := JObj([("data", JArr([JObj([("attributes", JObj(attrs))])]))]);
            && ResponseShaped(body, allow)
            && Records(body, allow) == [JObj(FlattenAttributes(attrs, allow))]
  {
    var item := JObj([("attributes", JObj(attrs))]);
    assert Get(item, "attributes", JObj([])) == JObj(attrs);
    assert ItemShaped(item, allow);
  }

  /** The fixture flattens to `[{"id": 1, "supervisor": {"id": 1}}]`. */
  lemma {:induction false} FixtureFlattens(allow: set<string>)
    requires "id" in allow && "supervisor" in allow
    ensures ResponseShaped(FixtureResponse(), allow)
    ensures Records(FixtureResponse(), allow)
            == [JObj([("id", JInt(1)), ("supervisor", JObj([("id", JInt(1))]))])]
  {
    FixtureRecord(allow);
    SingleItemRecords(FixtureAttributes(), allow);
  }
}
