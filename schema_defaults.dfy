/**
 * Schema defaulting (`initialize_empty_properties`): every recognised,
 * non-title column of a database schema gets an empty value keyed by the
 * column's property id.
 */
module SchemaDefaults {
  import opened Wrappers
  import opened NotionTypes

  /** Column types whose empty value is `[]`. */
  const ListTypes: set<string> := {"rich_text", "multi_select", "people", "files", "relation"}
  /** Column types whose empty value is `None`. */
  const NullTypes: set<string> := {"number", "select", "date", "url", "email", "phone_number", "status"}
  /** Column types whose empty value is `False`. */
  const FalseTypes: set<string> := {"checkbox"}

  /** The thirteen column types the table knows, all of them other than `title`. */
  const RecognisedTypes: set<string> := ListTypes + NullTypes + FalseTypes

  /** The `{type: default}` value written for one column type; `None` when the type is skipped. */
  function DefaultValue(typ: string): (r: Option<Json>)
    ensures r.Some? <==> typ in RecognisedTypes
    ensures typ in ListTypes ==> r == Some(JObj(map[typ := JArr([])]))
    ensures typ in NullTypes ==> r == Some(JObj(map[typ := JNull]))
    ensures typ in FalseTypes ==> r == Some(JObj(map[typ := JBool(false)]))
    ensures typ == "title" ==> r == None
  {
    if typ == "title" then None
    else if typ == "rich_text" then Some(JObj(map["rich_text" := JArr([])]))
    else if typ == "number" then Some(JObj(map["number" := JNull]))
    else if typ == "select" then Some(JObj(map["select" := JNull]))
    else if typ == "multi_select" then Some(JObj(map["multi_select" := JArr([])]))
    else if typ == "date" then Some(JObj(map["date" := JNull]))
    else if typ == "people" then Some(JObj(map["people" := JArr([])]))
    else if typ == "files" then Some(JObj(map["files" := JArr([])]))
    else if typ == "checkbox" then Some(JObj(map["checkbox" := JBool(false)]))
    else if typ == "url" then Some(JObj(map["url" := JNull]))
    else if typ == "email" then Some(JObj(map["email" := JNull]))
    else if typ == "phone_number" then Some(JObj(map["phone_number" := JNull]))
    else if typ == "relation" then Some(JObj(map["relation" := JArr([])]))
    else if typ == "status" then Some(JObj(map["status" := JNull]))
    else None
  }

  /** The default a descriptor contributes: none for a missing or empty type. */
  function DescriptorDefault(p: PropertyDescriptor): Option<Json> {
    if p.typ.None? || p.typ.value == "" then None else DefaultValue(p.typ.value)
  }

  /** The descriptor has a type the table fills in (non-empty, known, not `title`). */
  predicate Recognised(p: PropertyDescriptor) {
    p.typ.Some? && p.typ.value in RecognisedTypes
  }

  /**
   * The dict the loop builds, defined on the schema's prefix: each entry in
   * iteration order either adds (or overwrites) its id, or is skipped.
   */
  function EmptyProperties(schema: Schema): map<string, Json>
    decreases |schema|
  {
    if schema == [] then map[]
    else AddDefault(EmptyProperties(schema[..|schema| - 1]), schema[|schema| - 1].1)
  }

  /** One iteration of the loop: write the descriptor's default under its id, if it has one. */
  function AddDefault(acc: map<string, Json>, p: PropertyDescriptor): map<string, Json> {
    match DescriptorDefault(p)
    case Some(v) => acc[p.id := v]
    case None => acc
  }

  /** The loop of `initialize_empty_properties`, filling a fresh dict in place. */
  method InitializeEmptyProperties(schema: Schema) returns (properties: map<string, Json>)
    ensures properties == EmptyProperties(schema)
  {
    properties := map[];
    for i := 0 to |schema|
      invariant properties == EmptyProperties(schema[..i])
    {
      assert schema[..i + 1][..i] == schema[..i];
      var p := schema[i].1;
      if p.typ.None? || p.typ.value == "" {
        continue;
      }
      var typ := p.typ.value;
      if typ == "title" {
        // set explicitly by the caller
      } else if typ == "rich_text" {
        properties := properties[p.id := JObj(map["rich_text" := JArr([])])];
      } else if typ == "number" {
        properties := properties[p.id := JObj(map["number" := JNull])];
      } else if typ == "select" {
        properties := properties[p.id := JObj(map["select" := JNull])];
      } else if typ == "multi_select" {
        properties := properties[p.id := JObj(map["multi_select" := JArr([])])];
      } else if typ == "date" {
        properties := properties[p.id := JObj(map["date" := JNull])];
      } else if typ == "people" {
        properties := properties[p.id := JObj(map["people" := JArr([])])];
      } else if typ == "files" {
        properties := properties[p.id := JObj(map["files" := JArr([])])];
      } else if typ == "checkbox" {
        properties := properties[p.id := JObj(map["checkbox" := JBool(false)])];
      } else if typ == "url" {
        properties := properties[p.id := JObj(map["url" := JNull])];
      } else if typ == "email" {
        properties := properties[p.id := JObj(map["email" := JNull])];
      } else if typ == "phone_number" {
        properties := properties[p.id := JObj(map["phone_number" := JNull])];
      } else if typ == "relation" {
        properties := properties[p.id := JObj(map["relation" := JArr([])])];
      } else if typ == "status" {
        properties := properties[p.id := JObj(map["status" := JNull])];
      }
    }
    assert schema[..|schema|] == schema;
  }

  lemma DescriptorDefaultIffRecognised(p: PropertyDescriptor)
    ensures DescriptorDefault(p).Some? <==> Recognised(p)
    ensures Recognised(p) ==> DescriptorDefault(p) == DefaultValue(p.typ.value)
  {
    if p.typ.Some? && p.typ.value == "" {
      assert "" !in RecognisedTypes;
    }
  }

  /**
   * The result's keys are exactly the ids of the recognised descriptors:
   * titles, missing, empty and unknown types contribute nothing, and names
   * are never used as keys.
   */
  lemma {:induction false} KeysAreRecognisedIds(schema: Schema)
    ensures forall k :: k in EmptyProperties(schema) <==>
      exists i :: 0 <= i < |schema| && schema[i].1.id == k && Recognised(schema[i].1)
    decreases |schema|
  {
    if schema != [] {
      var init := schema[..|schema| - 1];
      var p := schema[|schema| - 1].1;
      KeysAreRecognisedIds(init);
      DescriptorDefaultIffRecognised(p);
      forall k ensures k in EmptyProperties(schema) <==>
        exists i :: 0 <= i < |schema| && schema[i].1.id == k && Recognised(schema[i].1)
      {
        if k in EmptyProperties(init) {
          var i :| 0 <= i < |init| && init[i].1.id == k && Recognised(init[i].1);
          assert schema[i] == init[i];
        }
        if exists i :: 0 <= i < |schema| && schema[i].1.id == k && Recognised(schema[i].1) {
          var i :| 0 <= i < |schema| && schema[i].1.id == k && Recognised(schema[i].1);
          if i < |init| {
            assert init[i] == schema[i];
          }
        }
      }
    }
  }

  /**
   * Each key holds the default of the LAST recognised descriptor with that id:
   * on duplicate ids the later property in iteration order wins.
   */
  lemma {:induction false} LastRecognisedWins(schema: Schema, i: int)
    requires 0 <= i < |schema| && Recognised(schema[i].1)
    requires forall j :: i < j < |schema| ==> schema[j].1.id != schema[i].1.id || !Recognised(schema[j].1)
    ensures schema[i].1.id in EmptyProperties(schema)
    ensures EmptyProperties(schema)[schema[i].1.id] == DefaultValue(schema[i].1.typ.value).value
    decreases |schema|
  {
    var init := schema[..|schema| - 1];
    var p := schema[|schema| - 1].1;
    DescriptorDefaultIffRecognised(p);
    DescriptorDefaultIffRecognised(schema[i].1);
    if i < |schema| - 1 {
      assert init[i] == schema[i];
      LastRecognisedWins(init, i);
    }
  }

  /** A descriptor that is not recognised may be dropped anywhere without changing the result. */
  lemma {:induction false} SkippedDescriptorIrrelevant(before: Schema, name: string, p: PropertyDescriptor, after: Schema)
    requires !Recognised(p)
    ensures EmptyProperties(before + [(name, p)] + after) == EmptyProperties(before + after)
    decreases |after|
  {
    if after == [] {
      DescriptorDefaultIffRecognised(p);
      EmptyPropertiesSnoc(before, (name, p));
      assert before + [(name, p)] + after == before + [(name, p)];
      assert before + after == before;
    } else {
      var init := after[..|after| - 1];
      var last := after[|after| - 1];
      SkippedDescriptorIrrelevant(before, name, p, init);
      assert after == init + [last];
      assert before + [(name, p)] + after == (before + [(name, p)] + init) + [last];
      assert before + after == (before + init) + [last];
      EmptyPropertiesSnoc(before + [(name, p)] + init, last);
      EmptyPropertiesSnoc(before + init, last);
    }
  }

  /** Unfolding `EmptyProperties` at an explicit last element. */
  lemma EmptyPropertiesSnoc(schema: Schema, entry: (string, PropertyDescriptor))
    ensures EmptyProperties(schema + [entry]) == AddDefault(EmptyProperties(schema), entry.1)
  {
    assert (schema + [entry])[..|schema|] == schema;
  }

  /** An empty schema yields an empty dict; a title column alone yields one too. */
  lemma EmptySchemaNoProperties(name: string, id: string)
    ensures EmptyProperties([]) == map[]
    ensures EmptyProperties([(name, PropertyDescriptor(id, Some("title")))]) == map[]
  {
    var s := [(name, PropertyDescriptor(id, Some("title")))];
    assert s[..0] == [];
  }
}
