/**
  Hiding is erasure: the paths one recursion finds in Go types (walkStructFields) are
  exactly the properties another recursion removes from their schemas (cleanSchema), both in
  hack/crd-to-openapi/main.go.
 */
module Hiding {
  import opened Schema
  import opened StructTypes
  import opened TypeSchemas

  // Dotted paths.

  predicate DotFree(name: string) { '.' !in name }

  ghost predicate Under(path: string, q: string) { path + "." <= q }

  /** `q` is the path of field `name` at `path`, or lies under it. */
  ghost predicate AtOrUnder(path: string, name: string, q: string) {
    q == Extend(path, name) || Under(Extend(path, name), q)
  }

  /** A path belongs to at most one field. */
  lemma FieldsApart(path: string, a: string, b: string, q: string)
    requires DotFree(a) && DotFree(b) && AtOrUnder(path, a, q) && AtOrUnder(path, b, q)
    ensures a == b
  {
    var n := |path| + 1;
    assert q[n..n + |a|] == a && q[n..n + |b|] == b;
    assert |q| > n + |a| ==> q[n + |a|] == '.';
    assert |q| > n + |b| ==> q[n + |b|] == '.';
  }

  lemma UnderField(path: string, name: string, q: string)
    requires AtOrUnder(path, name, q)
    ensures Under(path, q)
  {
  }

  // What the walk finds.

  ghost predicate InField(f: Field, path: string, types: TypeMap, rank: Rank, bound: nat, q: string)
    requires Acyclic(types, rank)
  {
    var here := Extend(path, f.jsonName);
    var entered := Entered(f.typ, types);
    && Named(f)
    && if f.hidden then q == here
       else entered.Some? && q in Walk(types[entered.value], here, types, rank, rank[entered.value])
  }

  lemma {:induction false} WalkMembers(fields: seq<Field>, path: string, types: TypeMap, rank: Rank, bound: nat,
                                       q: string)
    requires Acyclic(types, rank) && EntersBelow(fields, types, rank, bound)
    ensures q in Walk(fields, path, types, rank, bound) <==>
              exists i :: 0 <= i < |fields| && InField(fields[i], path, types, rank, bound, q)
  {
    if fields != [] {
      var init := fields[..|fields| - 1];
      WalkMembers(init, path, types, rank, bound, q);
      assert forall i :: 0 <= i < |init| ==> init[i] == fields[i];
    }
  }

  lemma {:induction false} WalkIsUnder(fields: seq<Field>, path: string, types: TypeMap, rank: Rank, bound: nat,
                                       q: string)
    requires Acyclic(types, rank) && EntersBelow(fields, types, rank, bound)
              && q in Walk(fields, path, types, rank, bound)
    ensures Under(path, q)
    decreases bound, |fields|
  {
    var f := fields[|fields| - 1];
    var entered := Entered(f.typ, types);
    if q in Walk(fields[..|fields| - 1], path, types, rank, bound) {
      WalkIsUnder(fields[..|fields| - 1], path, types, rank, bound, q);
    } else if !f.hidden {
      assert rank[entered.value] < bound;
      WalkIsUnder(types[entered.value], Extend(path, f.jsonName), types, rank, rank[entered.value], q);
      UnderField(path, f.jsonName, q);
    }
  }

  lemma InFieldIsThere(f: Field, path: string, types: TypeMap, rank: Rank, bound: nat, q: string)
    requires Acyclic(types, rank) && InField(f, path, types, rank, bound, q)
    ensures AtOrUnder(path, f.jsonName, q) && (f.hidden <==> q == Extend(path, f.jsonName))
  {
    var entered := Entered(f.typ, types);
    if !f.hidden {
      WalkIsUnder(types[entered.value], Extend(path, f.jsonName), types, rank, rank[entered.value], q);
    }
  }

  // Names.

  /** The JSON names of a struct's fields are distinct and free of dots. */
  predicate GoodNames(fields: seq<Field>) {
    && (forall i :: 0 <= i < |fields| && Named(fields[i]) ==> DotFree(fields[i].jsonName))
    && (forall i, j :: 0 <= i < j < |fields| && Named(fields[i]) && Named(fields[j]) ==>
        fields[i].jsonName != fields[j].jsonName)
  }

  /** Every struct type has good names, and notes never collide with structural keys. */
  predicate WellFormed(types: TypeMap) {
    forall name :: name in types ==>
      GoodNames(types[name]) && forall i :: 0 <= i < |types[name]| ==> PlainNotes(types[name][i].notes)
  }

  // The hidden set agrees with a walk below a path.

  /** What the walk finds below a type expression, as far as the view erases anything. */
  ghost function Erased(t: GoType, path: string, types: TypeMap, rank: Rank, v: View): set<string>
    requires Acyclic(types, rank)
  {
    var entered := Entered(t, types);
    if v.Tidied? && v.erase && entered.Some? then Walk(types[entered.value], path, types, rank, rank[entered.value])
        else {}
  }

  ghost predicate Agrees(hidden: Hidden, found: set<string>, path: string) {
    forall q :: Under(path, q) ==> (IsHidden(hidden, q) <==> q in found)
  }

  ghost function ErasedStruct(fields: seq<Field>, path: string, types: TypeMap, rank: Rank, bound: nat,
                              v: View): set<string>
    requires Acyclic(types, rank) && EntersBelow(fields, types, rank, bound)
  {
    if v.Tidied? && v.erase then Walk(fields, path, types, rank, bound) else {}
  }

  /** For one field: its own path is hidden exactly when the view erases it, and otherwise
      the hidden set agrees with the walk of its type below it. */
  ghost predicate FieldAgrees(f: Field, hidden: Hidden, path: string, types: TypeMap, rank: Rank, v: View)
    requires Acyclic(types, rank)
  {
    Named(f) ==>
      && (IsHidden(hidden, Extend(path, f.jsonName)) <==> !Shown(f, v))
      && (Shown(f, v) ==> Agrees(hidden, Erased(f.typ, Extend(path, f.jsonName), types, rank, v),
                                 Extend(path, f.jsonName)))
  }

  /** No other field of the struct contributes paths at or under this one. */
  lemma OnlyThisField(fields: seq<Field>, i: nat, path: string, types: TypeMap, rank: Rank, bound: nat, q: string)
    requires Acyclic(types, rank) && EntersBelow(fields, types, rank, bound) && GoodNames(fields)
    requires i < |fields| && Named(fields[i]) && AtOrUnder(path, fields[i].jsonName, q)
    ensures q in Walk(fields, path, types, rank, bound) <==> InField(fields[i], path, types, rank, bound, q)
  {
    WalkMembers(fields, path, types, rank, bound, q);
    if q in Walk(fields, path, types, rank, bound) {
      var j :| 0 <= j < |fields| && InField(fields[j], path, types, rank, bound, q);
      InFieldIsThere(fields[j], path, types, rank, bound, q);
      FieldsApart(path, fields[i].jsonName, fields[j].jsonName, q);
      assert i == j;
    }
  }

  lemma FieldsAgree(fields: seq<Field>, i: nat, hidden: Hidden, path: string, types: TypeMap, rank: Rank, bound: nat,
                    v: View)
    requires Acyclic(types, rank) && EntersBelow(fields, types, rank, bound) && GoodNames(fields) && i < |fields|
    requires v == REACHED || v == OPEN
    requires Agrees(hidden, ErasedStruct(fields, path, types, rank, bound, v), path)
    ensures FieldAgrees(fields[i], hidden, path, types, rank, v)
  {
    var f := fields[i];
    if Named(f) {
      var here := Extend(path, f.jsonName);
      UnderField(path, f.jsonName, here);
      OnlyThisField(fields, i, path, types, rank, bound, here);
      if InField(f, path, types, rank, bound, here) {
        InFieldIsThere(f, path, types, rank, bound, here);
      }
      if Shown(f, v) {
        forall q | Under(here, q)
          ensures IsHidden(hidden, q) <==> q in Erased(f.typ, here, types, rank, v)
        {
          UnderField(path, f.jsonName, q);
          OnlyThisField(fields, i, path, types, rank, bound, q);
        }
      }
    }
  }

  // Cleaning the schema of a type.

  /** Cleaning a field's schema is cleaning its type's, and its notes lose their extensions. */
  lemma FieldCleans(f: Field, hidden: Hidden, path: string, types: TypeMap, rank: Rank, bound: nat, v: View)
    requires Grounded(types, rank) && Fits(f.typ, types, rank, bound) && PlainNotes(f.notes) && v.Tidied?
    requires Clean(Obj(TypeSchema(f.typ, types, rank, bound, Raw)), hidden, path)
              == Obj(TypeSchema(f.typ, types, rank, bound, v))
    ensures Clean(FieldSchema(f, types, rank, bound, Raw), hidden, path) == FieldSchema(f, types, rank, bound, v)
  {
    CleanWithNotes(TypeSchema(f.typ, types, rank, bound, Raw), f.notes, hidden, path);
  }

  /** The fields of a struct are ready: each agrees and each shown one's schema cleans as it should. */
  ghost predicate Ready(f: Field, hidden: Hidden, path: string, types: TypeMap, rank: Rank, bound: nat, v: View)
    requires Grounded(types, rank) && Fits(f.typ, types, rank, bound)
  {
    Named(f) ==>
      && (IsHidden(hidden, Below(path, f.jsonName)) <==> !Shown(f, v))
      && (Shown(f, v) ==>
            Clean(FieldSchema(f, types, rank, bound, Raw), hidden, Below(path, f.jsonName))
                == FieldSchema(f, types, rank, bound, v))
  }

  lemma {:induction false} PropNames(fields: seq<Field>, types: TypeMap, rank: Rank, bound: nat, v: View, name: string)
    requires Grounded(types, rank) && AllFit(fields, types, rank, bound)
    ensures name in Props(fields, types, rank, bound, v) ==>
              exists i :: 0 <= i < |fields| && Named(fields[i]) && fields[i].jsonName == name
  {
    if fields != [] {
      var init := fields[..|fields| - 1];
      PropNames(init, types, rank, bound, v, name);
      assert forall i :: 0 <= i < |init| ==> init[i] == fields[i];
    }
  }

  lemma CleanOneMore(props: map<string, Json>, name: string, s: Json, hidden: Hidden, path: string)
    requires name !in props
    ensures CleanProperties(Obj(props[name := s]), hidden, path)
         == if IsHidden(hidden, Below(path, name)) then CleanProperties(Obj(props), hidden, path)
            else Obj(CleanProperties(Obj(props), hidden, path).fields[name := Clean(s, hidden, Below(path, name))])
  {
  }

  lemma {:induction false} PropsClean(fields: seq<Field>, hidden: Hidden, path: string, types: TypeMap, rank: Rank,
                                      bound: nat, v: View)
    requires Grounded(types, rank) && AllFit(fields, types, rank, bound) && GoodNames(fields) && v.Tidied?
    requires forall i :: 0 <= i < |fields| ==> Ready(fields[i], hidden, path, types, rank, bound, v)
    ensures CleanProperties(Obj(Props(fields, types, rank, bound, Raw)), hidden, path)
              == Obj(Props(fields, types, rank, bound, v))
  {
    if fields != [] {
      var init, f := fields[..|fields| - 1], fields[|fields| - 1];
      assert forall i :: 0 <= i < |init| ==> init[i] == fields[i];
      PropsClean(init, hidden, path, types, rank, bound, v);
      assert Ready(f, hidden, path, types, rank, bound, v);
      var raw := Props(init, types, rank, bound, Raw);
      if Named(f) {
        if f.jsonName in raw {
          PropNames(init, types, rank, bound, Raw, f.jsonName);
        }
        CleanOneMore(raw, f.jsonName, FieldSchema(f, types, rank, bound, Raw), hidden, path);
      }
    }
  }

  lemma {:induction false} RequiredCleans(fields: seq<Field>, hidden: Hidden, path: string, v: View)
    requires v.Tidied?
    requires forall i :: 0 <= i < |fields| && Named(fields[i]) ==>
               (IsHidden(hidden, Below(path, fields[i].jsonName)) <==> !Shown(fields[i], v))
    ensures FilterRequired(Required(fields, Raw), hidden, path) == Required(fields, v)
  {
    if fields != [] {
      var init, f := fields[..|fields| - 1], fields[|fields| - 1];
      assert forall i :: 0 <= i < |init| ==> init[i] == fields[i];
      RequiredCleans(init, hidden, path, v);
      var req := Required(init, Raw);
      if Shown(f, Raw) && !f.optional {
        assert (req + [Text(f.jsonName)])[..|req|] == req;
      } else {
        assert req + [] == req;
      }
    }
  }

  ghost predicate Cleans(t: GoType, hidden: Hidden, path: string, types: TypeMap, rank: Rank, bound: nat, v: View)
    requires Grounded(types, rank) && Fits(t, types, rank, bound)
  {
    Clean(Obj(TypeSchema(t, types, rank, bound, Raw)), hidden, path) == Obj(TypeSchema(t, types, rank, bound, v))
  }

  lemma {:induction false} StructCleans(name: string, hidden: Hidden, path: string, types: TypeMap, rank: Rank, v: View)
    requires Grounded(types, rank) && Acyclic(types, rank) && WellFormed(types) && name in types && path != ""
    requires v == REACHED || v == OPEN
    requires Agrees(hidden, ErasedStruct(types[name], path, types, rank, rank[name], v), path)
    ensures Clean(Obj(StructSchema(name, types, rank, Raw)), hidden, path) == Obj(StructSchema(name, types, rank, v))
    decreases rank[name], 1
  {
    var fields, bound := types[name], rank[name];
    forall i | 0 <= i < |fields|
      ensures Ready(fields[i], hidden, path, types, rank, bound, v)
    {
      FieldsAgree(fields, i, hidden, path, types, rank, bound, v);
      if Shown(fields[i], v) {
        TypeCleans(fields[i].typ, hidden, Below(path, fields[i].jsonName), types, rank, bound, v);
        FieldCleans(fields[i], hidden, Below(path, fields[i].jsonName), types, rank, bound, v);
      }
    }
    PropsClean(fields, hidden, path, types, rank, bound, v);
    RequiredCleans(fields, hidden, path, v);
    CleanObject(Props(fields, types, rank, bound, Raw), Required(fields, Raw), hidden, path);
  }

  lemma {:induction false} TypeCleans(t: GoType, hidden: Hidden, path: string, types: TypeMap, rank: Rank, bound: nat,
                                      v: View)
    requires Grounded(types, rank) && Acyclic(types, rank) && WellFormed(types) && Fits(t, types, rank, bound)
              && path != ""
    requires v == REACHED || v == OPEN
    requires Agrees(hidden, Erased(t, path, types, rank, v), path)
    ensures Cleans(t, hidden, path, types, rank, bound, v)
    decreases bound, 0, t
  {
    match t
    case Ident(name) =>
      if IsStruct(name, types) {
        StructCleans(name, hidden, path, types, rank, v);
      } else {
        CleanLeaf(name, hidden, path);
      }
    case Star(elt) => TypeCleans(elt, hidden, path, types, rank, bound, v);
    case Slice(elt) =>
      TypeCleans(elt, hidden, path, types, rank, bound, v);
      CleanArray(Obj(TypeSchema(elt, types, rank, bound, Raw)), hidden, path);
    case MapOf(value) =>
      assert UnderMap(v) == OPEN;
      TypeCleans(value, hidden, path, types, rank, bound, OPEN);
      CleanMap(Obj(TypeSchema(value, types, rank, bound, Raw)), hidden, path);
    case Foreign(name) => CleanLeaf(name, hidden, path);
  }
}
