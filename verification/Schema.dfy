/**
  Cleaning of JSON schemas (hack/crd-to-openapi/main.go): cleanSchema drops Kubernetes
  extension keys and hidden properties at every level; extractResource and
  buildResourceSchema run it twice over a resource's schema.
 */
module Schema {
  import opened Wrappers

  /** A JSON tree; `Other` stands for numbers, booleans and null. */
  datatype Json = Text(text: string) | Other(code: int) | List(elements: seq<Json>) | Obj(fields: map<string, Json>)

  /** A set of hidden paths, or no set at all: the two differ for `required` lists. */
  type Hidden = Option<set<string>>

  const EXTENSION := "x-kubernetes-"

  predicate IsHidden(hidden: Hidden, path: string) { hidden.Some? && path in hidden.value }

  function Below(path: string, name: string): string { if path == "" then name else path + "." + name }

  /** The name in a `required` entry; an entry that is no text names the empty string. */
  function NameOf(entry: Json): string { if entry.Text? then entry.text else "" }

  function FilterRequired(entries: seq<Json>, hidden: Hidden, path: string): seq<Json> {
    if entries == [] then []
    else
      var last := entries[|entries| - 1];
      FilterRequired(entries[..|entries| - 1], hidden, path)
      + if IsHidden(hidden, Below(path, NameOf(last))) then [] else [last]
  }

  predicate Keeps(k: string, v: Json, hidden: Hidden, path: string) {
    if EXTENSION <= k then false
    else if k == "properties" then v.Obj?
    else if k == "required" then hidden.Some? && v.List? ==> FilterRequired(v.elements, hidden, path) != []
    else true
  }

  function CleanField(k: string, v: Json, hidden: Hidden, path: string): Json
    decreases v, 1
  {
    if k == "properties" then CleanProperties(v, hidden, path)
    else if k == "required" && v.List? then List(FilterRequired(v.elements, hidden, path))
    else if k == "items" || k == "additionalProperties" then Clean(v, hidden, path)
    else v
  }

  function CleanProperties(v: Json, hidden: Hidden, path: string): Json
    decreases v, 0
  {
    match v
    case Obj(props) =>
      Obj(map pk | pk in props && !IsHidden(hidden, Below(path, pk)) :: Clean(props[pk], hidden, Below(path, pk)))
    case _ => v
  }

  /** A schema without extension keys and without the properties whose path is hidden. */
  function Clean(s: Json, hidden: Hidden, path: string): Json
    decreases s, 0
  {
    match s
    case Obj(m) => Obj(map k | k in m && Keeps(k, m[k], hidden, path) :: CleanField(k, m[k], hidden, path))
    case _ => s
  }

  // Cleaning spelled out.

  lemma {:induction false} FilterRequiredAppend(a: seq<Json>, b: seq<Json>, hidden: Hidden, path: string)
    ensures FilterRequired(a + b, hidden, path) == FilterRequired(a, hidden, path) + FilterRequired(b, hidden, path)
  {
    if b == [] {
      assert a + b == a;
    } else {
      var k := |b| - 1;
      FilterRequiredAppend(a, b[..k], hidden, path);
      assert (a + b)[..|a + b| - 1] == a + b[..k];
    }
  }

  /** A required name stays unless the path of its property is hidden. */
  lemma FilterRequiredOne(name: string, hidden: Hidden, path: string)
    ensures FilterRequired([Text(name)], hidden, path)
         == if hidden.Some? && (if path == "" then name else path + "." + name) in hidden.value then []
            else [Text(name)]
  {
    assert [Text(name)][..0] == [];
  }

  /** Which keys of a schema stay, and that most keep their values. */
  lemma CleanedKeys(m: map<string, Json>, hidden: Hidden, path: string, k: string)
    ensures var c := Clean(Obj(m), hidden, path);
            && c.Obj?
            && (k in c.fields <==>
                  && k in m && !("x-kubernetes-" <= k) && (k == "properties" ==> m[k].Obj?)
                  && (k == "required" && hidden.Some? && m[k].List? ==>
                        FilterRequired(m[k].elements, hidden, path) != []))
            && (k in c.fields && k !in ["properties", "required", "items", "additionalProperties"] ==>
                  c.fields[k] == m[k])
            && (k in c.fields && k in ["items", "additionalProperties"] ==>
                  c.fields[k] == Clean(m[k], hidden, path))
  {
  }

  /** Which properties stay, and the path each is cleaned at. */
  lemma CleanedPropertiesLiterally(props: map<string, Json>, hidden: Hidden, path: string, pk: string)
    ensures var at := if path == "" then pk else path + "." + pk;
            var c := CleanProperties(Obj(props), hidden, path);
            && c.Obj?
            && (pk in c.fields <==> pk in props && !(hidden.Some? && at in hidden.value))
            && (pk in c.fields ==> c.fields[pk] == Clean(props[pk], hidden, at))
  {
  }

  // The recursion of the tool.

  method FilterRequiredEntries(entries: seq<Json>, hidden: Hidden, path: string) returns (filtered: seq<Json>)
    ensures filtered == FilterRequired(entries, hidden, path)
  {
    filtered := [];
    for i := 0 to |entries|
      invariant filtered == FilterRequired(entries[..i], hidden, path)
    {
      assert entries[..i + 1][..i] == entries[..i];
      if !IsHidden(hidden, Below(path, NameOf(entries[i]))) {
        filtered := filtered + [entries[i]];
      }
    }
    assert entries[..|entries|] == entries;
  }

  lemma {:induction false} NothingFiltered(entries: seq<Json>, path: string)
    ensures FilterRequired(entries, None, path) == entries
  {
    if entries != [] {
      NothingFiltered(entries[..|entries| - 1], path);
    }
  }

  method CleanPropertiesOf(properties: Json, hidden: Hidden, path: string) returns (cleaned: Json)
    requires properties.Obj?
    ensures cleaned == CleanProperties(properties, hidden, path)
    decreases properties, 0
  {
    var props := properties.fields;
    var out: map<string, Json> := map[];
    var todo := props.Keys;
    while todo != {}
      invariant todo <= props.Keys
      invariant out == map pk | pk in props && pk !in todo && !IsHidden(hidden, Below(path, pk))
                         :: Clean(props[pk], hidden, Below(path, pk))
      decreases |todo|
    {
      var pk :| pk in todo;
      todo := todo - {pk};
      var propPath := Below(path, pk);
      if IsHidden(hidden, propPath) {
        continue;
      }
      if props[pk].Obj? {
        var child := CleanSchema(props[pk], hidden, propPath);
        out := out[pk := child];
      } else {
        out := out[pk := props[pk]];
      }
    }
    cleaned := Obj(out);
  }

  /** One key of a schema: its new value, if it stays. */
  method CleanKey(k: string, v: Json, hidden: Hidden, path: string) returns (r: Option<Json>)
    ensures r == if Keeps(k, v, hidden, path) then Some(CleanField(k, v, hidden, path)) else None
    decreases v, 2
  {
    if EXTENSION <= k {
      return None;
    }
    match k {
      case "properties" =>
        if !v.Obj? {
          return None;
        }
        var props := CleanPropertiesOf(v, hidden, path);
        return Some(props);
      case "required" =>
        if hidden.Some? && v.List? {
          var filtered := FilterRequiredEntries(v.elements, hidden, path);
          return if |filtered| > 0 then Some(List(filtered)) else None;
        }
        if v.List? {
          NothingFiltered(v.elements, path);
        }
        return Some(v);
      case _ =>
        if (k == "items" || k == "additionalProperties") && v.Obj? {
          var child := CleanSchema(v, hidden, path);
          return Some(child);
        }
        return Some(v);
    }
  }

  method CleanSchema(schema: Json, hidden: Hidden, path: string) returns (cleaned: Json)
    requires schema.Obj?
    ensures cleaned == Clean(schema, hidden, path)
    decreases schema, 1
  {
    var m := schema.fields;
    var out: map<string, Json> := map[];
    var todo := m.Keys;
    while todo != {}
      invariant todo <= m.Keys
      invariant out == map k | k in m && k !in todo && Keeps(k, m[k], hidden, path) :: CleanField(k, m[k], hidden, path)
      decreases |todo|
    {
      var k :| k in todo;
      todo := todo - {k};
      var kept := CleanKey(k, m[k], hidden, path);
      if kept.Some? {
        out := out[k := kept.value];
      }
    }
    cleaned := Obj(out);
  }

  // Two passes are one.

  /** The paths hidden by either of two passes. */
  function Both(h1: Hidden, h2: Hidden): Hidden {
    match (h1, h2)
    case (None, _) => h2
    case (_, None) => h1
    case (Some(a), Some(b)) => Some(a + b)
  }

  lemma {:induction false} FiltersFuse(entries: seq<Json>, h1: Hidden, h2: Hidden, path: string)
    ensures FilterRequired(FilterRequired(entries, h1, path), h2, path) == FilterRequired(entries, Both(h1, h2), path)
  {
    if entries != [] {
      var init, last := entries[..|entries| - 1], entries[|entries| - 1];
      FiltersFuse(init, h1, h2, path);
      var once := FilterRequired(init, h1, path);
      assert (once + [last])[..|once|] == once && once + [] == once;
    }
  }

  lemma {:induction false} PropertiesFuse(v: Json, h1: Hidden, h2: Hidden, path: string)
    ensures CleanProperties(CleanProperties(v, h1, path), h2, path) == CleanProperties(v, Both(h1, h2), path)
    decreases v, 0
  {
    if v.Obj? {
      forall pk | pk in v.fields
        ensures Clean(Clean(v.fields[pk], h1, Below(path, pk)), h2, Below(path, pk))
             == Clean(v.fields[pk], Both(h1, h2), Below(path, pk))
      {
        CleanFuses(v.fields[pk], h1, h2, Below(path, pk));
      }
    }
  }

  /** One key: it survives both passes exactly when it survives the joint one, with the same value. */
  lemma {:induction false} FieldFuses(k: string, v: Json, h1: Hidden, h2: Hidden, path: string)
    ensures Keeps(k, v, h1, path) && Keeps(k, CleanField(k, v, h1, path), h2, path) <==> Keeps(k, v, Both(h1, h2), path)
    ensures CleanField(k, CleanField(k, v, h1, path), h2, path) == CleanField(k, v, Both(h1, h2), path)
    decreases v, 1
  {
    if k == "properties" {
      PropertiesFuse(v, h1, h2, path);
    } else if k == "required" && v.List? {
      FiltersFuse(v.elements, h1, h2, path);
    } else if k == "items" || k == "additionalProperties" {
      CleanFuses(v, h1, h2, path);
    }
  }

  /** Cleaning twice is cleaning once with the paths of both passes. */
  lemma {:induction false} CleanFuses(s: Json, h1: Hidden, h2: Hidden, path: string)
    ensures Clean(Clean(s, h1, path), h2, path) == Clean(s, Both(h1, h2), path)
    decreases s, 0
  {
    if s.Obj? {
      forall k | k in s.fields
        ensures Keeps(k, s.fields[k], h1, path) && Keeps(k, CleanField(k, s.fields[k], h1, path), h2, path)
           <==> Keeps(k, s.fields[k], Both(h1, h2), path)
        ensures CleanField(k, CleanField(k, s.fields[k], h1, path), h2, path)
             == CleanField(k, s.fields[k], Both(h1, h2), path)
      {
        FieldFuses(k, s.fields[k], h1, h2, path);
      }
    }
  }

  /** Without hidden paths the path plays no part. */
  lemma {:induction false} PathIsIrrelevant(s: Json, path1: string, path2: string)
    ensures Clean(s, None, path1) == Clean(s, None, path2)
    decreases s
  {
    if s.Obj? {
      forall k | k in s.fields
        ensures Keeps(k, s.fields[k], None, path1) == Keeps(k, s.fields[k], None, path2)
        ensures CleanField(k, s.fields[k], None, path1) == CleanField(k, s.fields[k], None, path2)
      {
        var v := s.fields[k];
        if k == "properties" && v.Obj? {
          forall pk | pk in v.fields
            ensures Clean(v.fields[pk], None, Below(path1, pk)) == Clean(v.fields[pk], None, Below(path2, pk))
          {
            PathIsIrrelevant(v.fields[pk], Below(path1, pk), Below(path2, pk));
          }
        } else if k == "required" && v.List? {
          NothingFiltered(v.elements, path1);
          NothingFiltered(v.elements, path2);
        } else if k == "items" || k == "additionalProperties" {
          PathIsIrrelevant(v, path1, path2);
        }
      }
    }
  }

  /** The tool's two passes -- first without hidden paths, from any path, then with them --
      are one pass. */
  lemma TwoPassesFuse(s: Json, path0: string, hidden: Hidden, path: string)
    ensures Clean(Clean(s, None, path0), hidden, path) == Clean(s, hidden, path)
  {
    PathIsIrrelevant(s, path0, path);
    CleanFuses(s, None, hidden, path);
  }

  lemma CleanIsIdempotent(s: Json, hidden: Hidden, path: string)
    ensures Clean(Clean(s, hidden, path), hidden, path) == Clean(s, hidden, path)
  {
    CleanFuses(s, hidden, hidden, path);
    assert Both(hidden, hidden) == hidden by {
      if hidden.Some? {
        assert hidden.value + hidden.value == hidden.value;
      }
    }
  }

  // What is left.

  /** No entry of a `required` list is hidden. */
  ghost predicate AllVisible(entries: seq<Json>, hidden: Hidden, path: string) {
    forall i :: 0 <= i < |entries| ==> !IsHidden(hidden, Below(path, NameOf(entries[i])))
  }

  ghost predicate TidyField(k: string, v: Json, hidden: Hidden, path: string)
    decreases v, 1
  {
    && !(EXTENSION <= k)
    && (k == "properties" ==> v.Obj? && TidyProperties(v, hidden, path))
    && (k == "required" && hidden.Some? && v.List? ==> v.elements != [] && AllVisible(v.elements, hidden, path))
    && (k == "items" || k == "additionalProperties" ==> Tidy(v, hidden, path))
  }

  ghost predicate TidyProperties(v: Json, hidden: Hidden, path: string)
    requires v.Obj?
    decreases v, 0
  {
    forall pk :: pk in v.fields ==>
      !IsHidden(hidden, Below(path, pk)) && Tidy(v.fields[pk], hidden, Below(path, pk))
  }

  /** Nothing in the schema is hidden and no reached level has an extension key. */
  ghost predicate Tidy(s: Json, hidden: Hidden, path: string)
    decreases s, 0
  {
    s.Obj? ==> forall k :: k in s.fields ==> TidyField(k, s.fields[k], hidden, path)
  }

  lemma {:induction false} FilterKeepsTheVisible(entries: seq<Json>, hidden: Hidden, path: string)
    ensures AllVisible(FilterRequired(entries, hidden, path), hidden, path)
    ensures |FilterRequired(entries, hidden, path)| <= |entries|
    ensures AllVisible(entries, hidden, path) <==> FilterRequired(entries, hidden, path) == entries
    ensures forall x :: x in FilterRequired(entries, hidden, path) ==> x in entries
  {
    if entries != [] {
      var init, last := entries[..|entries| - 1], entries[|entries| - 1];
      FilterKeepsTheVisible(init, hidden, path);
      assert entries == init + [last];
    }
  }

  lemma {:induction false} CleanedFieldIsTidy(k: string, v: Json, hidden: Hidden, path: string)
    requires Keeps(k, v, hidden, path)
    ensures TidyField(k, CleanField(k, v, hidden, path), hidden, path)
    decreases v, 1
  {
    if k == "properties" {
      forall pk | pk in v.fields
        ensures Tidy(Clean(v.fields[pk], hidden, Below(path, pk)), hidden, Below(path, pk))
      {
        CleanIsTidy(v.fields[pk], hidden, Below(path, pk));
      }
    } else if k == "required" && v.List? {
      FilterKeepsTheVisible(v.elements, hidden, path);
    } else if k == "items" || k == "additionalProperties" {
      CleanIsTidy(v, hidden, path);
    }
  }

  /** Cleaning removes everything hidden, at every reached level. */
  lemma {:induction false} CleanIsTidy(s: Json, hidden: Hidden, path: string)
    ensures Tidy(Clean(s, hidden, path), hidden, path)
    decreases s, 0
  {
    if s.Obj? {
      var out := Clean(s, hidden, path).fields;
      forall k | k in out
        ensures TidyField(k, out[k], hidden, path)
      {
        CleanedFieldIsTidy(k, s.fields[k], hidden, path);
      }
    }
  }

  lemma {:induction false} TidyFieldStays(k: string, v: Json, hidden: Hidden, path: string)
    requires TidyField(k, v, hidden, path)
    ensures Keeps(k, v, hidden, path) && CleanField(k, v, hidden, path) == v
    decreases v, 1
  {
    if k == "properties" {
      forall pk | pk in v.fields
        ensures Clean(v.fields[pk], hidden, Below(path, pk)) == v.fields[pk]
      {
        TidyStays(v.fields[pk], hidden, Below(path, pk));
      }
    } else if k == "required" && v.List? {
      if hidden.Some? {
        FilterKeepsTheVisible(v.elements, hidden, path);
      } else {
        NothingFiltered(v.elements, path);
      }
    } else if k == "items" || k == "additionalProperties" {
      TidyStays(v, hidden, path);
    }
  }

  /** And removes nothing else: a schema without anything hidden stays as it is. */
  lemma {:induction false} TidyStays(s: Json, hidden: Hidden, path: string)
    requires Tidy(s, hidden, path)
    ensures Clean(s, hidden, path) == s
    decreases s, 0
  {
    if s.Obj? {
      forall k | k in s.fields
        ensures Keeps(k, s.fields[k], hidden, path) && CleanField(k, s.fields[k], hidden, path) == s.fields[k]
      {
        TidyFieldStays(k, s.fields[k], hidden, path);
      }
    }
  }

  // Required names stay declared.

  predicate Declares(m: map<string, Json>, entry: Json) {
    entry.Text? && "properties" in m && m["properties"].Obj? && entry.text in m["properties"].fields
  }

  ghost predicate ClosedField(k: string, v: Json, m: map<string, Json>)
    decreases v, 1
  {
    && (k == "required" && v.List? ==> forall x :: x in v.elements ==> Declares(m, x))
    && (k == "properties" && v.Obj? ==> ClosedProperties(v))
    && (k == "items" || k == "additionalProperties" ==> Closed(v))
  }

  ghost predicate ClosedProperties(v: Json)
    requires v.Obj?
    decreases v, 0
  {
    forall pk :: pk in v.fields ==> Closed(v.fields[pk])
  }

  /** At every reached level, `required` lists name declared properties only. */
  ghost predicate Closed(s: Json)
    decreases s, 0
  {
    s.Obj? ==> forall k :: k in s.fields ==> ClosedField(k, s.fields[k], s.fields)
  }

  lemma {:induction false} FilteredEntry(entries: seq<Json>, hidden: Hidden, path: string, x: Json)
    ensures x in FilterRequired(entries, hidden, path) <==>
              x in entries && !IsHidden(hidden, Below(path, NameOf(x)))
  {
    if entries != [] {
      FilteredEntry(entries[..|entries| - 1], hidden, path, x);
      assert x in entries <==> x in entries[..|entries| - 1] || x == entries[|entries| - 1];
    }
  }

  /** A declared entry that is not filtered out is still declared by the cleaned properties. */
  lemma StillDeclared(m: map<string, Json>, hidden: Hidden, path: string, x: Json)
    requires Declares(m, x) && !IsHidden(hidden, Below(path, NameOf(x)))
    ensures Declares(Clean(Obj(m), hidden, path).fields, x)
  {
    var out := Clean(Obj(m), hidden, path).fields;
    var k := "properties";
    assert Keeps(k, m[k], hidden, path);
    assert out[k] == CleanField(k, m[k], hidden, path) == CleanProperties(m[k], hidden, path);
  }

  lemma {:induction false} CleanedFieldIsClosed(k: string, m: map<string, Json>, hidden: Hidden, path: string)
    requires k in m && ClosedField(k, m[k], m) && Keeps(k, m[k], hidden, path)
    ensures ClosedField(k, CleanField(k, m[k], hidden, path), Clean(Obj(m), hidden, path).fields)
    decreases m[k], 1
  {
    var v := m[k];
    if k == "required" && v.List? {
      var out := Clean(Obj(m), hidden, path).fields;
      forall x | x in FilterRequired(v.elements, hidden, path)
        ensures Declares(out, x)
      {
        FilteredEntry(v.elements, hidden, path, x);
        StillDeclared(m, hidden, path, x);
      }
    } else if k == "properties" {
      forall pk | pk in v.fields
        ensures Closed(Clean(v.fields[pk], hidden, Below(path, pk)))
      {
        CleanStaysClosed(v.fields[pk], hidden, Below(path, pk));
      }
    } else if k == "items" || k == "additionalProperties" {
      CleanStaysClosed(v, hidden, path);
    }
  }

  lemma {:induction false} CleanStaysClosed(s: Json, hidden: Hidden, path: string)
    requires Closed(s)
    ensures Closed(Clean(s, hidden, path))
    decreases s, 0
  {
    if s.Obj? {
      var out := Clean(s, hidden, path).fields;
      forall k | k in out
        ensures ClosedField(k, out[k], out)
      {
        CleanedFieldIsClosed(k, s.fields, hidden, path);
      }
    }
  }
}
