/**
  From a CRD's schema to the published one (hack/crd-to-openapi/main.go): extractResource
  cleans it and drops the standard top-level fields, buildResourceSchema cleans each
  top-level property again, now with the kind's hidden paths.
 */
module Resources {
  import opened Wrappers
  import opened Schema

  const STANDARD: set<string> := {"apiVersion", "kind", "metadata"}

  const METADATA_REF := Obj(map["$ref" := Text("#/components/schemas/ObjectMeta")])

  function WithoutStandard(entries: seq<Json>): seq<Json> {
    if entries == [] then []
    else
      var last := entries[|entries| - 1];
      WithoutStandard(entries[..|entries| - 1]) + if NameOf(last) in STANDARD then [] else [last]
  }

  /** The extracted schema; none where the tool's type assertion on `properties` panics. */
  function Extracted(schema: Json): Option<Json>
    requires schema.Obj?
  {
    var m := Clean(schema, None, "").fields;
    if "properties" in m && m["properties"].Obj? then
      var m1 := m["properties" := Obj(m["properties"].fields - STANDARD)];
      if "required" in m && m["required"].List? then
        var left := WithoutStandard(m["required"].elements);
        Some(Obj(if left == [] then m1 - {"required"} else m1["required" := List(left)]))
      else Some(Obj(m1))
    else None
  }

  method ExtractSchema(schema: Json) returns (r: Option<Json>)
    requires schema.Obj?
    ensures r == Extracted(schema)
  {
    var cleaned := CleanSchema(schema, None, "");
    var m := cleaned.fields;
    if "properties" !in m || !m["properties"].Obj? {
      return None;
    }
    m := m["properties" := Obj(m["properties"].fields - STANDARD)];
    if "required" in m && m["required"].List? {
      var req := m["required"].elements;
      var filtered := [];
      for i := 0 to |req|
        invariant filtered == WithoutStandard(req[..i])
      {
        assert req[..i + 1][..i] == req[..i];
        if NameOf(req[i]) !in STANDARD {
          filtered := filtered + [req[i]];
        }
      }
      assert req[..|req|] == req;
      if |filtered| > 0 {
        m := m["required" := List(filtered)];
      } else {
        m := m - {"required"};
      }
    }
    r := Some(Obj(m));
  }

  function Description(m: map<string, Json>): Json {
    if "description" in m && m["description"].Text? then m["description"] else Text("")
  }

  function CleanEach(props: map<string, Json>, hidden: Hidden): map<string, Json> {
    map pk | pk in props :: Clean(props[pk], hidden, pk)
  }

  function PublishedProperties(m: map<string, Json>, hidden: Hidden): map<string, Json> {
    var base := map["metadata" := METADATA_REF];
    if "properties" in m && m["properties"].Obj? then base + CleanEach(m["properties"].fields, hidden) else base
  }

  function Published(m: map<string, Json>, hidden: Hidden): map<string, Json> {
    var base := map["type" := Text("object"), "description" := Description(m)]
                   ["properties" := Obj(PublishedProperties(m, hidden))];
    if "required" in m && m["required"].List? then base["required" := m["required"]] else base
  }

  method FilterProperties(srcProps: map<string, Json>, hidden: Hidden) returns (filteredProps: map<string, Json>)
    ensures filteredProps == CleanEach(srcProps, hidden)
  {
    filteredProps := map[];
    var todo := srcProps.Keys;
    while todo != {}
      invariant todo <= srcProps.Keys
      invariant filteredProps == map pk | pk in srcProps && pk !in todo :: Clean(srcProps[pk], hidden, pk)
      decreases |todo|
    {
      var pk :| pk in todo;
      todo := todo - {pk};
      if srcProps[pk].Obj? {
        var child := CleanSchema(srcProps[pk], hidden, pk);
        filteredProps := filteredProps[pk := child];
      } else {
        filteredProps := filteredProps[pk := srcProps[pk]];
      }
    }
  }

  method BuildResourceSchema(m: map<string, Json>, hidden: Hidden) returns (schema: map<string, Json>)
    ensures schema == Published(m, hidden)
  {
    schema := map["type" := Text("object"), "description" := Description(m)];
    var props := map["metadata" := METADATA_REF];
    if "properties" in m && m["properties"].Obj? {
      var filteredProps := FilterProperties(m["properties"].fields, hidden);
      props := props + filteredProps;
    }
    schema := schema["properties" := Obj(props)];
    if "required" in m && m["required"].List? {
      schema := schema["required" := m["required"]];
    }
  }

  /** The properties a schema declares. */
  function PropertiesOf(s: Json): map<string, Json> {
    if s.Obj? && "properties" in s.fields && s.fields["properties"].Obj? then s.fields["properties"].fields else map[]
  }

  lemma CleanedProperties(s: Json, hidden: Hidden, path: string, pk: string)
    ensures pk in PropertiesOf(Clean(s, hidden, path)) <==> pk in PropertiesOf(s) && !IsHidden(hidden, Below(path, pk))
    ensures pk in PropertiesOf(Clean(s, hidden, path)) ==>
              PropertiesOf(Clean(s, hidden, path))[pk] == Clean(PropertiesOf(s)[pk], hidden, Below(path, pk))
  {
    var k := "properties";
    if s.Obj? && k in s.fields {
      assert Keeps(k, s.fields[k], hidden, path) <==> s.fields[k].Obj?;
      assert CleanField(k, s.fields[k], hidden, path) == CleanProperties(s.fields[k], hidden, path);
    }
  }

  /** Extraction fails exactly on schemas that declare no properties object. */
  lemma ExtractionSucceedsIff(s: Json)
    requires s.Obj?
    ensures Extracted(s).Some? <==> "properties" in s.fields && s.fields["properties"].Obj?
  {
    var k := "properties";
    if k in s.fields {
      assert Keeps(k, s.fields[k], None, "") <==> s.fields[k].Obj?;
      assert CleanField(k, s.fields[k], None, "") == CleanProperties(s.fields[k], None, "");
    }
  }

  /** Both passes together: the published properties are the declared ones but the standard
      three, each cleaned once with the hidden paths from its own name, and the reference
      to the standard metadata. */
  lemma PublishedOnce(s: Json, hidden: Hidden, pk: string)
    requires s.Obj? && Extracted(s).Some?
    ensures var out := PublishedProperties(Extracted(s).value.fields, hidden);
            && (pk in out <==> pk == "metadata" || (pk in PropertiesOf(s) && pk !in STANDARD))
            && (pk in out && pk == "metadata" ==> out[pk] == METADATA_REF)
            && (pk in out && pk != "metadata" ==> out[pk] == Clean(PropertiesOf(s)[pk], hidden, pk))
  {
    CleanedProperties(s, None, "", pk);
    var cleaned := Clean(s, None, "");
    var m := Extracted(s).value.fields;
    assert m["properties"] == Obj(cleaned.fields["properties"].fields - STANDARD);
    if pk in PropertiesOf(s) {
      TwoPassesFuse(PropertiesOf(s)[pk], pk, hidden, pk);
    }
  }

  lemma {:induction false} WithoutStandardMembers(entries: seq<Json>, x: Json)
    ensures x in WithoutStandard(entries) <==> x in entries && NameOf(x) !in STANDARD
  {
    if entries != [] {
      WithoutStandardMembers(entries[..|entries| - 1], x);
      assert x in entries <==> x in entries[..|entries| - 1] || x == entries[|entries| - 1];
    }
  }

  lemma {:induction false} WithoutStandardAppend(a: seq<Json>, b: seq<Json>)
    ensures WithoutStandard(a + b) == WithoutStandard(a) + WithoutStandard(b)
  {
    if b == [] {
      assert a + b == a;
    } else {
      var k := |b| - 1;
      WithoutStandardAppend(a, b[..k]);
      assert (a + b)[..|a + b| - 1] == a + b[..k];
    }
  }

  /** So the required names lose the standard three, one entry after the other. */
  lemma WithoutStandardOne(x: Json)
    ensures WithoutStandard([x])
         == if x == Text("apiVersion") || x == Text("kind") || x == Text("metadata") then [] else [x]
  {
    assert [x][..0] == [];
  }

  lemma CleanedKeyStays(s: Json, k: string)
    requires s.Obj? && (k == "required" || k == "description")
    ensures Lookup(Clean(s, None, "").fields, k) == Lookup(s.fields, k)
  {
    if k in s.fields {
      assert Keeps(k, s.fields[k], None, "");
      if s.fields[k].List? {
        NothingFiltered(s.fields[k].elements, "");
      }
      assert CleanField(k, s.fields[k], None, "") == s.fields[k];
    }
  }

  lemma ExtractedRequired(s: Json)
    requires s.Obj? && Extracted(s).Some?
    ensures var m := Extracted(s).value.fields;
            var declared := "required" in s.fields && s.fields["required"].List?;
            && ("required" in m && m["required"].List? <==>
                  declared && WithoutStandard(s.fields["required"].elements) != [])
            && ("required" in m && m["required"].List? ==>
                  m["required"] == List(WithoutStandard(s.fields["required"].elements)))
  {
    CleanedKeyStays(s, "required");
  }

  lemma ExtractedDescription(s: Json)
    requires s.Obj? && Extracted(s).Some?
    ensures Lookup(Extracted(s).value.fields, "description") == Lookup(s.fields, "description")
  {
    CleanedKeyStays(s, "description");
  }

  lemma PublishedKeys(m: map<string, Json>, hidden: Hidden)
    ensures var out := Published(m, hidden);
            var kept := "required" in m && m["required"].List?;
            && (forall k :: k in out <==> k in ["type", "description", "properties"] || (k == "required" && kept))
            && out["type"] == Text("object")
            && out["description"] == (if "description" in m && m["description"].Text? then m["description"]
                                      else Text(""))
            && (kept ==> out["required"] == m["required"])
            && out["properties"] == Obj(PublishedProperties(m, hidden))
  {
  }

  /** The published schema's own keys: the type, the declared description or an empty one, and the
      declared required names but the standard three, in order, if any are left. */
  lemma PublishedLiterally(s: Json, hidden: Hidden)
    requires s.Obj? && Extracted(s).Some?
    ensures var out := Published(Extracted(s).value.fields, hidden);
            var required := if "required" in s.fields && s.fields["required"].List?
                            then WithoutStandard(s.fields["required"].elements) else [];
            && (forall k :: k in out <==>
                  k in ["type", "description", "properties"] || (k == "required" && required != []))
            && out["type"] == Text("object")
            && out["description"] == (if "description" in s.fields && s.fields["description"].Text?
                                      then s.fields["description"] else Text(""))
            && (required != [] ==> out["required"] == List(required))
  {
    PublishedKeys(Extracted(s).value.fields, hidden);
    ExtractedRequired(s);
    ExtractedDescription(s);
  }

  /** Its metadata is a reference to the shared schema, and what is declared under another name than
      the standard three is there under its own. */
  lemma PublishedPropertiesLiterally(s: Json, hidden: Hidden, pk: string)
    requires s.Obj? && Extracted(s).Some?
    ensures var out := PublishedProperties(Extracted(s).value.fields, hidden);
            && "metadata" in out && out["metadata"] == Obj(map["$ref" := Text("#/components/schemas/ObjectMeta")])
            && (pk != "metadata" ==>
                  (pk in out <==> pk in PropertiesOf(s) && pk != "apiVersion" && pk != "kind"))
  {
    PublishedOnce(s, hidden, "metadata");
    PublishedOnce(s, hidden, pk);
  }

  /** A required name that is published has its property published. */
  lemma PublishedDeclares(s: Json, hidden: Hidden, x: Json)
    requires s.Obj? && Closed(s) && Extracted(s).Some?
    requires var out := Published(Extracted(s).value.fields, hidden);
             "required" in out && out["required"].List? && x in out["required"].elements
    ensures Declares(Published(Extracted(s).value.fields, hidden), x)
  {
    CleanStaysClosed(s, None, "");
    var m := Clean(s, None, "").fields;
    var e := Extracted(s).value.fields;
    assert "required" in e && e["required"].List? && x in e["required"].elements;
    assert "required" in m && m["required"].List?;
    WithoutStandardMembers(m["required"].elements, x);
    assert ClosedField("required", m["required"], m);
    assert Declares(m, x);
    CleanedProperties(s, None, "", x.text);
    PublishedOnce(s, hidden, x.text);
  }

  lemma PropertiesAreClosed(s: Json, pk: string)
    requires Closed(s) && pk in PropertiesOf(s)
    ensures Closed(PropertiesOf(s)[pk])
  {
    var k := "properties";
    assert ClosedField(k, s.fields[k], s.fields);
  }

  lemma PublishedPropertiesAreClosed(s: Json, hidden: Hidden)
    requires s.Obj? && Closed(s) && Extracted(s).Some?
    ensures ClosedProperties(Obj(PublishedProperties(Extracted(s).value.fields, hidden)))
  {
    var out := PublishedProperties(Extracted(s).value.fields, hidden);
    forall pk | pk in out
      ensures Closed(out[pk])
    {
      PublishedOnce(s, hidden, pk);
      if pk != "metadata" {
        PropertiesAreClosed(s, pk);
        CleanStaysClosed(PropertiesOf(s)[pk], hidden, pk);
      }
    }
  }

  /** Of a published schema's own keys only the properties and the required names can be open. */
  lemma TopIsClosed(m: map<string, Json>, hidden: Hidden)
    requires ClosedProperties(Obj(PublishedProperties(m, hidden)))
    requires var out := Published(m, hidden);
             "required" in out && out["required"].List? ==>
               forall x :: x in out["required"].elements ==> Declares(out, x)
    ensures Closed(Obj(Published(m, hidden)))
  {
    PublishedKeys(m, hidden);
    var out := Published(m, hidden);
    forall k | k in out
      ensures ClosedField(k, out[k], out)
    {
    }
  }

  /** The tool never publishes a required name without its property, at any level. */
  lemma PublishedIsClosed(s: Json, hidden: Hidden)
    requires s.Obj? && Closed(s) && Extracted(s).Some?
    ensures Closed(Obj(Published(Extracted(s).value.fields, hidden)))
  {
    var m := Extracted(s).value.fields;
    PublishedPropertiesAreClosed(s, hidden);
    if "required" in Published(m, hidden) && Published(m, hidden)["required"].List? {
      forall x | x in Published(m, hidden)["required"].elements
        ensures Declares(Published(m, hidden), x)
      {
        PublishedDeclares(s, hidden, x);
      }
    }
    TopIsClosed(m, hidden);
  }
}
