/**
  The theorem of the schema tool (hack/crd-to-openapi/main.go): what is published for a kind
  is the schema of its types with the hidden fields removed -- exactly when no hidden field
  sits below a map value, where the walk over types does not look.
 */
module Erasure {
  import opened Wrappers
  import opened Schema
  import opened StructTypes
  import opened TypeSchemas
  import opened Resources
  import opened Hiding

  // Types without their hidden fields.

  function Visible(fields: seq<Field>): seq<Field> {
    if fields == [] then []
    else
      var last := fields[|fields| - 1];
      Visible(fields[..|fields| - 1]) + if last.hidden then [] else [last]
  }

  function WithoutHidden(types: TypeMap): TypeMap { map name | name in types :: Visible(types[name]) }

  lemma {:induction false} VisibleFit(fields: seq<Field>, types: TypeMap, rank: Rank, bound: nat)
    requires AllFit(fields, types, rank, bound)
    ensures AllFit(Visible(fields), WithoutHidden(types), rank, bound)
  {
    if fields != [] {
      var init := fields[..|fields| - 1];
      assert forall i :: 0 <= i < |init| ==> init[i] == fields[i];
      VisibleFit(init, types, rank, bound);
      assert Fits(fields[|init|].typ, types, rank, bound);
    }
  }

  lemma WithoutHiddenIsGrounded(types: TypeMap, rank: Rank)
    requires Grounded(types, rank)
    ensures Grounded(WithoutHidden(types), rank)
  {
    forall name | name in types
      ensures name in rank && AllFit(Visible(types[name]), WithoutHidden(types), rank, rank[name])
    {
      VisibleFit(types[name], types, rank, rank[name]);
    }
  }

  lemma {:induction false} VisibleRequired(fields: seq<Field>)
    ensures Required(fields, FULL) == Required(Visible(fields), OPEN)
  {
    if fields != [] {
      var init, last := fields[..|fields| - 1], fields[|fields| - 1];
      VisibleRequired(init);
      if last.hidden {
        assert Visible(fields) == Visible(init);
      } else {
        assert (Visible(init) + [last])[..|Visible(init)|] == Visible(init);
      }
    }
  }

  lemma OneMoreProp(fields: seq<Field>, f: Field, types: TypeMap, rank: Rank, bound: nat, v: View)
    requires Grounded(types, rank) && AllFit(fields, types, rank, bound) && Fits(f.typ, types, rank, bound)
    ensures AllFit(fields + [f], types, rank, bound)
    ensures var props := Props(fields, types, rank, bound, v);
            Props(fields + [f], types, rank, bound, v) ==
              if Shown(f, v) then props[f.jsonName := FieldSchema(f, types, rank, bound, v)] else props
  {
    assert (fields + [f])[..|fields|] == fields;
  }

  lemma {:induction false} VisibleProps(fields: seq<Field>, types: TypeMap, rank: Rank, bound: nat)
    requires Grounded(types, rank) && AllFit(fields, types, rank, bound)
    requires Grounded(WithoutHidden(types), rank) && AllFit(Visible(fields), WithoutHidden(types), rank, bound)
    ensures Props(fields, types, rank, bound, FULL) == Props(Visible(fields), WithoutHidden(types), rank, bound, OPEN)
    decreases bound, 1, |fields|
  {
    if fields != [] {
      var init, last := fields[..|fields| - 1], fields[|fields| - 1];
      assert fields == init + [last];
      assert forall i :: 0 <= i < |init| ==> init[i] == fields[i];
      VisibleFit(init, types, rank, bound);
      VisibleProps(init, types, rank, bound);
      assert Fits(last.typ, types, rank, bound);
      OneMoreProp(init, last, types, rank, bound, FULL);
      if last.hidden {
        assert Visible(fields) == Visible(init);
      } else {
        OneMoreProp(Visible(init), last, WithoutHidden(types), rank, bound, OPEN);
        ErasedTypeSchema(last.typ, types, rank, bound);
      }
    }
  }

  /** The full view of a type is the plain schema of the type without hidden fields. */
  lemma {:induction false} ErasedTypeSchema(t: GoType, types: TypeMap, rank: Rank, bound: nat)
    requires Grounded(types, rank) && Fits(t, types, rank, bound)
    requires Grounded(WithoutHidden(types), rank)
    ensures TypeSchema(t, types, rank, bound, FULL) == TypeSchema(t, WithoutHidden(types), rank, bound, OPEN)
    decreases bound, 0, t
  {
    match t
    case Ident(name) =>
      if IsStruct(name, types) {
        ErasedStructSchema(name, types, rank);
      }
    case Star(elt) => ErasedTypeSchema(elt, types, rank, bound);
    case Slice(elt) => ErasedTypeSchema(elt, types, rank, bound);
    case MapOf(value) => ErasedTypeSchema(value, types, rank, bound);
    case Foreign(_) =>
  }

  lemma {:induction false} ErasedStructSchema(name: string, types: TypeMap, rank: Rank)
    requires Grounded(types, rank) && Grounded(WithoutHidden(types), rank) && name in types
    ensures StructSchema(name, types, rank, FULL) == StructSchema(name, WithoutHidden(types), rank, OPEN)
    decreases rank[name], 2
  {
    VisibleFit(types[name], types, rank, rank[name]);
    VisibleProps(types[name], types, rank, rank[name]);
    VisibleRequired(types[name]);
  }

  // When nothing hidden sits below a map.

  /** Following visible fields from the type, no hidden field is below a map value
      (`under`: the type itself is). */
  ghost predicate Clear(t: GoType, types: TypeMap, rank: Rank, bound: nat, under: bool)
    requires Grounded(types, rank) && Fits(t, types, rank, bound)
    decreases bound, 0, t
  {
    match t
    case Ident(name) => IsStruct(name, types) ==> ClearStruct(name, types, rank, under)
    case Star(elt) => Clear(elt, types, rank, bound, under)
    case Slice(elt) => Clear(elt, types, rank, bound, under)
    case MapOf(value) => Clear(value, types, rank, bound, true)
    case Foreign(_) => true
  }

  ghost predicate ClearField(f: Field, types: TypeMap, rank: Rank, bound: nat, under: bool)
    requires Grounded(types, rank) && Fits(f.typ, types, rank, bound)
    decreases bound, 1
  {
    Named(f) ==> if f.hidden then !under else Clear(f.typ, types, rank, bound, under)
  }

  ghost predicate ClearStruct(name: string, types: TypeMap, rank: Rank, under: bool)
    requires Grounded(types, rank) && name in types
    decreases rank[name], 2
  {
    forall i :: 0 <= i < |types[name]| ==>
      Fits(types[name][i].typ, types, rank, rank[name]) && ClearField(types[name][i], types, rank, rank[name], under)
  }

  /** What the tool produces: nothing is erased below maps. */
  function Produced(under: bool): View { if under then OPEN else REACHED }

  lemma {:induction false} SchemaKeys(t: GoType, types: TypeMap, rank: Rank, bound: nat, v: View)
    requires Grounded(types, rank) && Fits(t, types, rank, bound)
    ensures TypeSchema(t, types, rank, bound, v).Keys <= STRUCTURAL
    decreases t
  {
    match t
    case Star(elt) => SchemaKeys(elt, types, rank, bound, v);
    case _ =>
  }

  lemma SameWithNotes(a: map<string, Json>, b: map<string, Json>, notes: map<string, Json>)
    requires a.Keys !! notes.Keys && b.Keys !! notes.Keys
    ensures a + notes == b + notes <==> a == b
  {
    if a + notes == b + notes {
      forall k
        ensures k in a <==> k in b
        ensures k in a ==> a[k] == b[k]
      {
        assert k in a ==> (a + notes)[k] == a[k];
        assert k in b ==> (b + notes)[k] == b[k];
        assert k in a + notes <==> k in b + notes;
      }
    }
  }

  ghost predicate SameField(f: Field, types: TypeMap, rank: Rank, bound: nat, v: View)
    requires Grounded(types, rank) && Fits(f.typ, types, rank, bound)
  {
    Named(f) ==>
      && (Shown(f, v) <==> Shown(f, FULL))
      && (Shown(f, v) ==> FieldSchema(f, types, rank, bound, v) == FieldSchema(f, types, rank, bound, FULL))
  }

  ghost predicate FitsAndSame(f: Field, types: TypeMap, rank: Rank, bound: nat, v: View)
    requires Grounded(types, rank)
  {
    Fits(f.typ, types, rank, bound) && SameField(f, types, rank, bound, v)
  }

  lemma {:induction false} SameProps(fields: seq<Field>, types: TypeMap, rank: Rank, bound: nat, v: View)
    requires Grounded(types, rank) && AllFit(fields, types, rank, bound) && GoodNames(fields)
    ensures Props(fields, types, rank, bound, v) == Props(fields, types, rank, bound, FULL) <==>
              forall i :: 0 <= i < |fields| ==> FitsAndSame(fields[i], types, rank, bound, v)
  {
    if fields != [] {
      var init, f := fields[..|fields| - 1], fields[|fields| - 1];
      assert forall i :: 0 <= i < |init| ==> init[i] == fields[i];
      SameProps(init, types, rank, bound, v);
      assert Fits(f.typ, types, rank, bound);
      PropNames(init, types, rank, bound, v, f.jsonName);
      PropNames(init, types, rank, bound, FULL, f.jsonName);
      if Named(f) {
        SameUpdate(Props(init, types, rank, bound, v), Props(init, types, rank, bound, FULL), f.jsonName,
                   if Shown(f, v) then Some(FieldSchema(f, types, rank, bound, v)) else None,
                   if Shown(f, FULL) then Some(FieldSchema(f, types, rank, bound, FULL)) else None);
      }
      assert (forall i :: 0 <= i < |fields| ==> FitsAndSame(fields[i], types, rank, bound, v))
        <==> (forall i :: 0 <= i < |init| ==> FitsAndSame(init[i], types, rank, bound, v))
             && FitsAndSame(f, types, rank, bound, v);
    }
  }

  function Updated(m: map<string, Json>, k: string, v: Option<Json>): map<string, Json> {
    match v
    case None => m
    case Some(j) => m[k := j]
  }

  lemma SameUpdate(m1: map<string, Json>, m2: map<string, Json>, k: string, v1: Option<Json>, v2: Option<Json>)
    requires k !in m1 && k !in m2
    ensures Updated(m1, k, v1) == Updated(m2, k, v2) <==> m1 == m2 && v1 == v2
  {
    if Updated(m1, k, v1) == Updated(m2, k, v2) {
      assert k in Updated(m1, k, v1) <==> v1.Some?;
      assert k in Updated(m2, k, v2) <==> v2.Some?;
      assert v1.Some? ==> Updated(m1, k, v1)[k] == v1.value;
      assert v2.Some? ==> Updated(m2, k, v2)[k] == v2.value;
      forall x
        ensures x in m1 <==> x in m2
        ensures x in m1 ==> m1[x] == m2[x]
      {
        assert x != k ==> (x in m1 <==> x in Updated(m1, k, v1)) && (x in m2 <==> x in Updated(m2, k, v2));
        assert x in m1 ==> Updated(m1, k, v1)[x] == m1[x];
        assert x in m2 ==> Updated(m2, k, v2)[x] == m2[x];
      }
    }
  }

  lemma {:induction false} SameRequired(fields: seq<Field>, v: View)
    requires forall i :: 0 <= i < |fields| ==> (Shown(fields[i], v) <==> Shown(fields[i], FULL))
    ensures Required(fields, v) == Required(fields, FULL)
  {
    if fields != [] {
      var init := fields[..|fields| - 1];
      assert forall i :: 0 <= i < |init| ==> init[i] == fields[i];
      SameRequired(init, v);
    }
  }

  lemma SameObject(p1: map<string, Json>, r1: seq<Json>, p2: map<string, Json>, r2: seq<Json>)
    ensures ObjectSchema(p1, r1) == ObjectSchema(p2, r2) ==> p1 == p2
  {
    var k := "properties";
    assert ObjectSchema(p1, r1)[k] == Obj(p1);
    assert ObjectSchema(p2, r2)[k] == Obj(p2);
  }

  lemma SameNested(a: map<string, Json>, b: map<string, Json>)
    ensures ArraySchema(Obj(a)) == ArraySchema(Obj(b)) <==> a == b
    ensures MapSchema(Obj(a)) == MapSchema(Obj(b)) <==> a == b
  {
    var k1, k2 := "items", "additionalProperties";
    assert ArraySchema(Obj(a))[k1] == Obj(a) && ArraySchema(Obj(b))[k1] == Obj(b);
    assert MapSchema(Obj(a))[k2] == Obj(a) && MapSchema(Obj(b))[k2] == Obj(b);
  }

  lemma {:induction false} ClearFieldIff(f: Field, types: TypeMap, rank: Rank, bound: nat, under: bool)
    requires Grounded(types, rank) && WellFormed(types) && Fits(f.typ, types, rank, bound) && PlainNotes(f.notes)
    ensures SameField(f, types, rank, bound, Produced(under)) <==> ClearField(f, types, rank, bound, under)
    decreases bound, 1
  {
    if Named(f) && !f.hidden {
      var v := Produced(under);
      ClearIff(f.typ, types, rank, bound, under);
      SchemaKeys(f.typ, types, rank, bound, v);
      SchemaKeys(f.typ, types, rank, bound, FULL);
      SameWithNotes(TypeSchema(f.typ, types, rank, bound, v), TypeSchema(f.typ, types, rank, bound, FULL),
                    Notes(f.notes, v));
    }
  }

  lemma {:induction false} ClearStructIff(name: string, types: TypeMap, rank: Rank, under: bool)
    requires Grounded(types, rank) && WellFormed(types) && name in types
    ensures StructSchema(name, types, rank, Produced(under)) == StructSchema(name, types, rank, FULL)
       <==> ClearStruct(name, types, rank, under)
    decreases rank[name], 2
  {
    var fields, bound, v := types[name], rank[name], Produced(under);
    forall i | 0 <= i < |fields|
      ensures Fits(fields[i].typ, types, rank, bound)
      ensures FitsAndSame(fields[i], types, rank, bound, v) <==> ClearField(fields[i], types, rank, bound, under)
    {
      ClearFieldIff(fields[i], types, rank, bound, under);
    }
    SameProps(fields, types, rank, bound, v);
    SameObject(Props(fields, types, rank, bound, v), Required(fields, v),
               Props(fields, types, rank, bound, FULL), Required(fields, FULL));
    if ClearStruct(name, types, rank, under) {
      SameRequired(fields, v);
    }
  }

  /** What the tool produces for a type is its fully erased schema exactly if the type is clear. */
  lemma {:induction false} ClearIff(t: GoType, types: TypeMap, rank: Rank, bound: nat, under: bool)
    requires Grounded(types, rank) && WellFormed(types) && Fits(t, types, rank, bound)
    ensures TypeSchema(t, types, rank, bound, Produced(under)) == TypeSchema(t, types, rank, bound, FULL)
       <==> Clear(t, types, rank, bound, under)
    decreases bound, 0, t
  {
    match t
    case Ident(name) =>
      if IsStruct(name, types) {
        ClearStructIff(name, types, rank, under);
      }
    case Star(elt) => ClearIff(elt, types, rank, bound, under);
    case Slice(elt) =>
      ClearIff(elt, types, rank, bound, under);
      SameNested(TypeSchema(elt, types, rank, bound, Produced(under)), TypeSchema(elt, types, rank, bound, FULL));
    case MapOf(value) =>
      ClearIff(value, types, rank, bound, true);
      SameNested(TypeSchema(value, types, rank, bound, OPEN), TypeSchema(value, types, rank, bound, FULL));
    case Foreign(_) =>
  }

  // Main results.

  /** Cleaning a type's schema with the paths the walk finds removes every hidden field that
      is not below a map value; the result is the schema of the type without its hidden
      fields if and only if there is no hidden field below one. */
  lemma HidingIsErasure(name: string, path: string, types: TypeMap, rank: Rank)
    requires Grounded(types, rank) && WellFormed(types) && name in types && path != ""
    ensures Acyclic(types, rank) && Grounded(WithoutHidden(types), rank)
    ensures Clean(Obj(StructSchema(name, types, rank, Raw)),
                  Some(Walk(types[name], path, types, rank, rank[name])), path)
         == Obj(StructSchema(name, types, rank, REACHED))
    ensures Clean(Obj(StructSchema(name, types, rank, Raw)),
                  Some(Walk(types[name], path, types, rank, rank[name])), path)
         == Obj(StructSchema(name, WithoutHidden(types), rank, OPEN))
       <==> ClearStruct(name, types, rank, false)
  {
    GroundedIsAcyclic(types, rank);
    WithoutHiddenIsGrounded(types, rank);
    StructCleans(name, Some(Walk(types[name], path, types, rank, rank[name])), path, types, rank, REACHED);
    ClearStructIff(name, types, rank, false);
    ErasedStructSchema(name, types, rank);
  }

  predicate HasMap(t: GoType) {
    match t
    case Star(elt) => HasMap(elt)
    case Slice(elt) => HasMap(elt)
    case MapOf(_) => true
    case _ => false
  }

  /** Only pointers, slices and structs are nested. */
  predicate NoMaps(types: TypeMap) {
    forall name :: name in types ==> forall i :: 0 <= i < |types[name]| ==> !HasMap(types[name][i].typ)
  }

  lemma {:induction false} NoMapsIsClear(t: GoType, types: TypeMap, rank: Rank, bound: nat)
    requires Grounded(types, rank) && Fits(t, types, rank, bound) && NoMaps(types) && !HasMap(t)
    ensures Clear(t, types, rank, bound, false)
    decreases bound, 0, t
  {
    match t
    case Ident(name) =>
      if IsStruct(name, types) {
        NoMapsIsClearStruct(name, types, rank);
      }
    case Star(elt) => NoMapsIsClear(elt, types, rank, bound);
    case Slice(elt) => NoMapsIsClear(elt, types, rank, bound);
    case Foreign(_) =>
  }

  lemma {:induction false} NoMapsIsClearStruct(name: string, types: TypeMap, rank: Rank)
    requires Grounded(types, rank) && NoMaps(types) && name in types
    ensures ClearStruct(name, types, rank, false)
    decreases rank[name], 1
  {
    forall i | 0 <= i < |types[name]|
      ensures Fits(types[name][i].typ, types, rank, rank[name])
      ensures ClearField(types[name][i], types, rank, rank[name], false)
    {
      NoMapsIsClear(types[name][i].typ, types, rank, rank[name]);
    }
  }

  /** In particular, with pointer, slice and struct nesting only, hiding is erasure. */
  lemma HidingIsErasureWithoutMaps(name: string, path: string, types: TypeMap, rank: Rank)
    requires Grounded(types, rank) && WellFormed(types) && NoMaps(types) && name in types && path != ""
    ensures Acyclic(types, rank) && Grounded(WithoutHidden(types), rank)
    ensures Clean(Obj(StructSchema(name, types, rank, Raw)),
                  Some(Walk(types[name], path, types, rank, rank[name])), path)
         == Obj(StructSchema(name, WithoutHidden(types), rank, OPEN))
  {
    HidingIsErasure(name, path, types, rank);
    NoMapsIsClearStruct(name, types, rank);
  }

  /** The hidden set the tool looks up for a kind: none at all when nothing is hidden. */
  ghost function LookedUp(kind: string, types: TypeMap, rank: Rank): Hidden
    requires Acyclic(types, rank)
  {
    if KindPaths(kind, types, rank) == {} then None else Some(KindPaths(kind, types, rank))
  }

  /** The kind's own set agrees with the walk of its spec type below "spec", and with the walk
      of its status type below "status". */
  lemma KindAgrees(kind: string, types: TypeMap, rank: Rank)
    requires Acyclic(types, rank)
    ensures kind + "Spec" in types ==>
              Agrees(LookedUp(kind, types, rank), Walk(types[kind + "Spec"], "spec", types, rank, rank[kind + "Spec"]),
                     "spec")
    ensures kind + "Status" in types ==>
              Agrees(LookedUp(kind, types, rank), Walk(types[kind + "Status"], "status", types, rank,
                                                       rank[kind + "Status"]), "status")
  {
    forall q | kind + "Spec" in types && q in Walk(types[kind + "Spec"], "spec", types, rank, rank[kind + "Spec"])
      ensures |q| > 1 && q[1] == 'p'
    {
      WalkIsUnder(types[kind + "Spec"], "spec", types, rank, rank[kind + "Spec"], q);
      assert ("spec" + ".")[1] == 'p';
    }
    forall q | kind + "Status" in types
               && q in Walk(types[kind + "Status"], "status", types, rank, rank[kind + "Status"])
      ensures |q| > 1 && q[1] == 't'
    {
      WalkIsUnder(types[kind + "Status"], "status", types, rank, rank[kind + "Status"], q);
      assert ("status" + ".")[1] == 't';
    }
    assert forall q :: Under("spec", q) ==> |q| > 1 && q[1] == ("spec" + ".")[1];
    assert forall q :: Under("status", q) ==> |q| > 1 && q[1] == ("status" + ".")[1];
  }

  function TypeName(kind: string, part: string): string { kind + if part == "spec" then "Spec" else "Status" }

  lemma PartIsNotStandard(part: string)
    requires part == "spec" || part == "status"
    ensures part !in STANDARD
  {
    assert part[0] == 's';
  }

  /** From the Go types and the CRD to the published schema: where the CRD carries the schema
      of a kind's spec or status type, the published property is that schema without the
      hidden fields the walk reaches. */
  lemma PublishedIsErased(kind: string, s: Json, part: string, types: TypeMap, rank: Rank)
    requires Grounded(types, rank) && WellFormed(types) && s.Obj? && Extracted(s).Some?
    requires part == "spec" || part == "status"
    requires var name := TypeName(kind, part);
             && name in types && part in PropertiesOf(s)
             && PropertiesOf(s)[part] == Obj(StructSchema(name, types, rank, Raw))
    ensures Acyclic(types, rank)
    ensures var name := TypeName(kind, part);
            var out := PublishedProperties(Extracted(s).value.fields, LookedUp(kind, types, rank));
            part in out && out[part] == Obj(StructSchema(name, types, rank, REACHED))
  {
    GroundedIsAcyclic(types, rank);
    var name := TypeName(kind, part);
    KindAgrees(kind, types, rank);
    StructCleans(name, LookedUp(kind, types, rank), part, types, rank, REACHED);
    PublishedOnce(s, LookedUp(kind, types, rank), part);
    PartIsNotStandard(part);
  }

  // A hidden field below a map.

  /** A struct type whose map field's values are structs with one hidden field. */
  function MapOfSecrets(outer: string, inner: string, field: string, secret: string): TypeMap {
    map[outer := [Field(field, false, true, MapOf(Ident(inner)), map[])],
        inner := [Field(secret, true, true, Ident("string"), map[])]]
  }

  function MapOfSecretsRank(outer: string, inner: string): Rank { map[outer := 1, inner := 0] }

  /** There, whatever the names, the hidden field is not removed. */
  lemma SecretBelowMapStays(outer: string, inner: string, field: string, secret: string, path: string)
    requires outer != inner && inner != "" && outer != "string" && inner != "string" && path != ""
    requires Named(Field(field, false, true, Ident("string"), map[])) && DotFree(field)
    requires Named(Field(secret, true, true, Ident("string"), map[])) && DotFree(secret)
    ensures var types, rank := MapOfSecrets(outer, inner, field, secret), MapOfSecretsRank(outer, inner);
            && Grounded(types, rank) && WellFormed(types) && Acyclic(types, rank)
                && Grounded(WithoutHidden(types), rank)
            && Clean(Obj(StructSchema(outer, types, rank, Raw)),
                     Some(Walk(types[outer], path, types, rank, rank[outer])), path)
               != Obj(StructSchema(outer, WithoutHidden(types), rank, OPEN))
  {
    var types, rank := MapOfSecrets(outer, inner, field, secret), MapOfSecretsRank(outer, inner);
    assert Base(MapOf(Ident(inner))) == Base(Ident(inner)) == inner;
    assert AllFit(types[outer], types, rank, 1) && AllFit(types[inner], types, rank, 0);
    assert ClearField(types[inner][0], types, rank, rank[inner], true) == false;
    assert !ClearStruct(inner, types, rank, true);
    assert !Clear(types[outer][0].typ, types, rank, rank[outer], false);
    assert !ClearField(types[outer][0], types, rank, rank[outer], false);
    assert !ClearStruct(outer, types, rank, false);
    HidingIsErasure(outer, path, types, rank);
  }
}
